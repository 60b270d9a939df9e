/** Messages exchanged with the PHP worker, and the two command name tables. */
module Protocol {

  datatype Option<+T> = None | Some(value: T)

  /** For counting. */
  function One(b: bool): nat { if b then 1 else 0 }

  /** A message id. The host draws its own ids from a 64-bit counter; the worker chooses the rest. */
  type Id = nat

  /** Payloads, headers and failures are opaque values; `None` is Go's nil. */
  type Payloads = Option<seq<string>>
  type Header = Option<string>
  type Failure = Option<string>

  datatype Command =
    | GetWorkerInfo(version: string)
    | InvokeActivity(name: string, heartbeatDetails: nat)
    | InvokeLocalActivity(name: string)
    | StartWorkflow(runId: string, lastCompletion: nat)
    | InvokeSignal(runId: string, name: string)
    | InvokeQuery(runId: string, name: string)
    | InvokeUpdate(updateId: string, runId: string, name: string, phase: string)
    | CancelWorkflow(runId: string)
    | DestroyWorkflow(runId: string)
    | GetStackTrace(runId: string)
    | ExecuteActivity(name: string)
    | ExecuteLocalActivity(name: string)
    | ExecuteChildWorkflow(name: string, workflowId: string)
    | GetChildWorkflowExecution(child: Id)
    | NewTimer(milliseconds: int)
    | SideEffect
    | GetVersion(changeId: string, minSupported: int, maxSupported: int)
    | CompleteWorkflow
    | ContinueAsNew(name: string)
    | UpsertWorkflowSearchAttributes(attributes: string)
    | SignalExternalWorkflow(workflowId: string, signal: string)
    | CancelExternalWorkflow(workflowId: string)
    | UndefinedResponse(message: string)
    | Cancel(commandIds: seq<Id>)
    | Panic(message: string)

  datatype Message = Message(id: Id, command: Option<Command>, failure: Failure, payloads: Payloads, header: Header)
  {
    predicate IsCommand() { command.Some? }

    predicate IsUndefinedResponse() { command.Some? && command.value.UndefinedResponse? }
  }

  /** The Go type of a command, which is what both name tables switch on. */
  datatype Kind =
    | GetWorkerInfoKind
    | StartWorkflowKind
    | InvokeSignalKind
    | InvokeQueryKind
    | DestroyWorkflowKind
    | CancelWorkflowKind
    | GetStackTraceKind
    | InvokeActivityKind
    | ExecuteActivityKind
    | InvokeLocalActivityKind
    | ExecuteLocalActivityKind
    | ExecuteChildWorkflowKind
    | GetChildWorkflowExecutionKind
    | NewTimerKind
    | GetVersionKind
    | SideEffectKind
    | CompleteWorkflowKind
    | ContinueAsNewKind
    | UpsertWorkflowSearchAttributesKind
    | SignalExternalWorkflowKind
    | CancelExternalWorkflowKind
    | CancelKind
    | PanicKind
    | InvokeUpdateKind
    | UndefinedResponseKind

  function KindOf(c: Command): Kind
  {
    match c
    case GetWorkerInfo(_) => GetWorkerInfoKind
    case StartWorkflow(_, _) => StartWorkflowKind
    case InvokeSignal(_, _) => InvokeSignalKind
    case InvokeQuery(_, _) => InvokeQueryKind
    case DestroyWorkflow(_) => DestroyWorkflowKind
    case CancelWorkflow(_) => CancelWorkflowKind
    case GetStackTrace(_) => GetStackTraceKind
    case InvokeActivity(_, _) => InvokeActivityKind
    case ExecuteActivity(_) => ExecuteActivityKind
    case InvokeLocalActivity(_) => InvokeLocalActivityKind
    case ExecuteLocalActivity(_) => ExecuteLocalActivityKind
    case ExecuteChildWorkflow(_, _) => ExecuteChildWorkflowKind
    case GetChildWorkflowExecution(_) => GetChildWorkflowExecutionKind
    case NewTimer(_) => NewTimerKind
    case GetVersion(_, _, _) => GetVersionKind
    case SideEffect => SideEffectKind
    case CompleteWorkflow => CompleteWorkflowKind
    case ContinueAsNew(_) => ContinueAsNewKind
    case UpsertWorkflowSearchAttributes(_) => UpsertWorkflowSearchAttributesKind
    case SignalExternalWorkflow(_, _) => SignalExternalWorkflowKind
    case CancelExternalWorkflow(_) => CancelExternalWorkflowKind
    case Cancel(_) => CancelKind
    case Panic(_) => PanicKind
    case InvokeUpdate(_, _, _, _) => InvokeUpdateKind
    case UndefinedResponse(_) => UndefinedResponseKind
  }

  /** The name sent with a command; there is no case for UndefinedResponse. */
  function CommandName(k: Kind): (name: Option<string>)
  {
    match k
    case GetWorkerInfoKind => Some("GetWorkerInfo")
    case StartWorkflowKind => Some("StartWorkflow")
    case InvokeSignalKind => Some("InvokeSignal")
    case InvokeQueryKind => Some("InvokeQuery")
    case DestroyWorkflowKind => Some("DestroyWorkflow")
    case CancelWorkflowKind => Some("CancelWorkflow")
    case GetStackTraceKind => Some("StackTrace")
    case InvokeActivityKind => Some("InvokeActivity")
    case ExecuteActivityKind => Some("ExecuteActivity")
    case InvokeLocalActivityKind => Some("InvokeLocalActivity")
    case ExecuteLocalActivityKind => Some("ExecuteLocalActivity")
    case ExecuteChildWorkflowKind => Some("ExecuteChildWorkflow")
    case GetChildWorkflowExecutionKind => Some("GetChildWorkflowExecution")
    case NewTimerKind => Some("NewTimer")
    case GetVersionKind => Some("GetVersion")
    case SideEffectKind => Some("SideEffect")
    case CompleteWorkflowKind => Some("CompleteWorkflow")
    case ContinueAsNewKind => Some("ContinueAsNew")
    case UpsertWorkflowSearchAttributesKind => Some("UpsertWorkflowSearchAttributes")
    case SignalExternalWorkflowKind => Some("SignalExternalWorkflow")
    case CancelExternalWorkflowKind => Some("CancelExternalWorkflow")
    case CancelKind => Some("Cancel")
    case PanicKind => Some("Panic")
    case InvokeUpdateKind => Some("InvokeUpdate")
    case UndefinedResponseKind => None
  }

  /** The command type allocated for a received name; there is no case for InvokeLocalActivity. */
  function InitCommand(name: string): (k: Option<Kind>)
  {
    OrElse(InitInvocation(name), OrElse(InitHousekeeping(name), OrElse(InitOperation(name),
    OrElse(InitExternal(name), OrElse(InitImmediate(name), InitOutcome(name))))))
  }

  function OrElse<T>(a: Option<T>, b: Option<T>): Option<T> { if a.Some? then a else b }

  /** The cases of `InitCommand` for commands that run user code in the worker. */
  function InitInvocation(name: string): (k: Option<Kind>)
    ensures k.Some? ==> CommandName(k.value) == Some(name)
  {
    if name == "InvokeActivity" then Some(InvokeActivityKind)
    else if name == "StartWorkflow" then Some(StartWorkflowKind)
    else if name == "InvokeSignal" then Some(InvokeSignalKind)
    else if name == "InvokeQuery" then Some(InvokeQueryKind)
    else if name == "InvokeUpdate" then Some(InvokeUpdateKind)
    else None
  }

  /** The cases of `InitCommand` for commands that manage the worker. */
  function InitHousekeeping(name: string): (k: Option<Kind>)
    ensures k.Some? ==> CommandName(k.value) == Some(name)
  {
    if name == "GetWorkerInfo" then Some(GetWorkerInfoKind)
    else if name == "DestroyWorkflow" then Some(DestroyWorkflowKind)
    else if name == "CancelWorkflow" then Some(CancelWorkflowKind)
    else if name == "StackTrace" then Some(GetStackTraceKind)
    else None
  }

  /** The cases of `InitCommand` for operations that can be cancelled. */
  function InitOperation(name: string): (k: Option<Kind>)
    ensures k.Some? ==> CommandName(k.value) == Some(name)
  {
    if name == "ExecuteActivity" then Some(ExecuteActivityKind)
    else if name == "ExecuteLocalActivity" then Some(ExecuteLocalActivityKind)
    else if name == "ExecuteChildWorkflow" then Some(ExecuteChildWorkflowKind)
    else if name == "NewTimer" then Some(NewTimerKind)
    else None
  }

  /** The cases of `InitCommand` for requests about other workflows. */
  function InitExternal(name: string): (k: Option<Kind>)
    ensures k.Some? ==> CommandName(k.value) == Some(name)
  {
    if name == "GetChildWorkflowExecution" then Some(GetChildWorkflowExecutionKind)
    else if name == "SignalExternalWorkflow" then Some(SignalExternalWorkflowKind)
    else if name == "CancelExternalWorkflow" then Some(CancelExternalWorkflowKind)
    else if name == "UpsertWorkflowSearchAttributes" then Some(UpsertWorkflowSearchAttributesKind)
    else None
  }

  /** The cases of `InitCommand` for requests answered on the spot. */
  function InitImmediate(name: string): (k: Option<Kind>)
    ensures k.Some? ==> CommandName(k.value) == Some(name)
  {
    if name == "GetVersion" then Some(GetVersionKind)
    else if name == "SideEffect" then Some(SideEffectKind)
    else if name == "Cancel" then Some(CancelKind)
    else None
  }

  /** The cases of `InitCommand` for the ways a run ends. */
  function InitOutcome(name: string): (k: Option<Kind>)
    ensures k.Some? && k.value != UndefinedResponseKind ==> CommandName(k.value) == Some(name)
  {
    if name == "CompleteWorkflow" then Some(CompleteWorkflowKind)
    else if name == "ContinueAsNew" then Some(ContinueAsNewKind)
    else if name == "Panic" then Some(PanicKind)
    else if name == "UndefinedResponse" then Some(UndefinedResponseKind)
    else None
  }

  /** A name survives the trip to the other side and back, except the one the host only sends. */
  lemma SentNamesAreReceived(k: Kind)
    requires CommandName(k).Some?
    ensures InitCommand(CommandName(k).value) == (if k.InvokeLocalActivityKind? then None else Some(k))
  {
    InvocationNames(k);
    HousekeepingNames(k);
    OperationNames(k);
    ExternalNames(k);
    ImmediateNames(k);
    OutcomeNames(k);
  }

  /** No two commands are sent under one name. */
  lemma NamesDiffer(k: Kind, k': Kind)
    requires CommandName(k).Some? && CommandName(k) == CommandName(k')
    ensures k == k'
  {
    SentNamesAreReceived(k);
    SentNamesAreReceived(k');
  }

  /** A name that is understood stands for the kind that is sent under it. */
  lemma NameStandsFor(name: string, k: Kind)
    requires CommandName(k) == Some(name) && InitCommand(name).Some?
    ensures InitCommand(name) == Some(k)
  {
    SentNamesAreReceived(k);
  }

  /** Every name the host understands is one it can also send, except UndefinedResponse. */
  lemma ReceivedNamesAreSent(name: string)
    requires InitCommand(name).Some?
    ensures var k := InitCommand(name).value;
            CommandName(k) == (if k.UndefinedResponseKind? then None else Some(name))
  {
  }

  lemma InvocationNames(k: Kind)
    requires CommandName(k).Some?
    ensures InitInvocation(CommandName(k).value) ==
              (if k in {InvokeActivityKind, StartWorkflowKind, InvokeSignalKind, InvokeQueryKind,
                      InvokeUpdateKind}
               then Some(k) else None)
  {
  }

  lemma HousekeepingNames(k: Kind)
    requires CommandName(k).Some?
    ensures InitHousekeeping(CommandName(k).value) ==
              (if k in {GetWorkerInfoKind, DestroyWorkflowKind, CancelWorkflowKind, GetStackTraceKind}
               then Some(k) else None)
  {
  }

  lemma OperationNames(k: Kind)
    requires CommandName(k).Some?
    ensures InitOperation(CommandName(k).value) ==
              (if k in {ExecuteActivityKind, ExecuteLocalActivityKind, ExecuteChildWorkflowKind,
                      NewTimerKind}
               then Some(k) else None)
  {
  }

  lemma ExternalNames(k: Kind)
    requires CommandName(k).Some?
    ensures InitExternal(CommandName(k).value) ==
              (if k in {GetChildWorkflowExecutionKind, SignalExternalWorkflowKind,
                      CancelExternalWorkflowKind, UpsertWorkflowSearchAttributesKind}
               then Some(k) else None)
  {
  }

  lemma ImmediateNames(k: Kind)
    requires CommandName(k).Some?
    ensures InitImmediate(CommandName(k).value) ==
              (if k in {GetVersionKind, SideEffectKind, CancelKind}
               then Some(k) else None)
  {
  }

  lemma OutcomeNames(k: Kind)
    requires CommandName(k).Some?
    ensures InitOutcome(CommandName(k).value) ==
              (if k in {CompleteWorkflowKind, ContinueAsNewKind, PanicKind}
               then Some(k) else None)
  {
  }
}
