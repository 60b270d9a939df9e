# The workflow process of the Temporal plugin, in Dafny

RoadRunner's Temporal plugin runs PHP workflows. On the host side, one object per run,
`aggregatedpool.Workflow`, stands between the Temporal environment and the PHP worker. It queues outgoing
messages, works through the commands the worker sends back, defers completions that arrive between tasks, keeps
a table of cancel functions, waits for child executions, and handles updates. This project models that process
and the components it shares with other runs, and proves what holds in every run of it.

## How the model is built

`WorkflowModel` is the specification: a value `State` (the fields of the object, the handlers the environment
holds, and histories of what happened) and one function for each piece of `handler.go` and `workflow.go`. A run is
`After(launch, events)`, where the events are signals, cancel requests, updates, handler invocations, queries,
stack traces, ids drawn by other workflows, workflow tasks and Close, in any order.

- Go closures are data: a deferred completion, a registered cancel function and a registry listener each have a
  datatype.
- The environment and the worker are oracles. Every call into the environment that starts, cancels, queries or ends
  something takes an `Answer`, which lists the handlers it invokes before it returns. Every exchange with the worker encodes its messages into a body and takes a
  `Reply`: a failure of the call, an error, a stream, no response, or a body in return, which is then decoded. All
  theorems hold for every oracle.
- The JSON and protobuf libraries are parameters of a run. Where a theorem needs them to invert, it says so.
- The environment holds each handler once, so it invokes each at most once. This is a property of the Temporal
  SDK. Handlers may fire between tasks and inside any call that takes an `Answer`; "Left out" names the calls that
  take none.
- A handled command that is owed an answer is named by its position among all of them, so that reuse of ids by
  the worker is part of the model.

`Workflows.Workflow` has the program's own form: an object whose methods update its fields in place, over a message
queue on a reused array, a canceller table, a registry and a payload pool. Every method is proved to do to the
object what its function does to the state, and `Workflows.Play` concludes that a new object that goes through any
events is in the state `After` gives. So the theorems below are theorems about the object.

Whole-run invariants are proved with one induction principle (`WorkflowInduction.RunKeeps`): an invariant is shown
to survive a dozen primitive steps, and therefore survives handling, nested flushes, tasks and runs.

| file | contents |
|---|---|
| `Protocol.dfy`, `Codec.dfy` | messages, commands, the two name tables; the batch codec |
| `WorkflowModel.dfy`, `WorkflowInduction.dfy` | the specification and its induction principle |
| `Ordering.dfy` | incoming and outgoing order and conservation, panics, the first message, Close |
| `Delivery.dfy` | flushes as bytes: what the worker decodes from acknowledged bodies is what was pushed; what is sent again |
| `Answers.dfy` | what answers say: the outcome the command was given, in the fields of the message |
| `Settlement.dfy`, `Listeners.dfy` | every command owed an answer is in exactly one place; which are lost, and how often listeners are answered |
| `Replay.dfy` | what depends only on the messages taken: the commands owed an answer, the generated child ids |
| `Cancellation.dfy`, `CancelReach.dfy` | cancel requests never race completions; a Cancel reaches the operation it names |
| `Dispatch.dfy` | which commands can be cancelled, and which messages make a task panic |
| `Exchanges.dfy` | the contents of batches, the number of exchanges |
| `Requests.dfy`, `UpdateProtocol.dfy` | messages sent on their own, queries, updates |
| `CommandIds.dfy` | ids from the counter all workflows share |
| `RegistryRendezvous.dfy`, `Canceller.dfy`, `MessageQueue.dfy`, `Pools.dfy`, `Activity.dfy` | the shared components |
| `Workflow.dfy` | the object |

## What turned out conditional

Some properties one would expect of the code hold only under a condition. In each case the code is kept and a lemma
shows how the property fails.

- A cancel request reaches an operation that has not completed exactly when that operation did not complete inside
  its own start call, because the canceller is registered after that call (`CancelNeverRaces`,
  `EarlyCompletionLeavesStaleCanceller`). With distinct ids a Cancel reaches every running operation it names,
  except timers without a timer id. In general it reaches the operation whose canceller is registered under the id,
  which with a reused id may be neither of two (`CancelAllReaches`, `CancelAsksExactly`, `ReusedIdHidesOperation`).
- A panicking task clears the pipeline unless its first flush failed, or the message it panicked on is a side effect
  with others behind it; these stay. A side effect panics exactly when its result is good and the flush of it
  fails (`PanicClearsPipeline`, `SideEffectPanics`, `SideEffectPanicKeepsPipeline`).
- A `GetChildWorkflowExecution` is lost exactly when a later one for the same child was handled before that child
  had started, and then for good (`LostExactly`, `ReplacedIsNeverAnswered`). Its listener is answered at most once,
  whatever the environment does, exactly when its answers so far and the start handlers still held for the child are
  at most one (`AnsweredAtMostOnce`, `ReusedChildIdAnswersTwice`).
- Every answerable command taken goes on the books, except a `GetVersion` whose version cannot be converted
  (`BooksComplete`).
- Command ids are fresh exactly while fewer than 2^64 have been drawn; generated child ids are distinct exactly up
  to 2^64 of them (`IdsAreFresh`, `ChildNamesDistinct`).
- A batch survives encoding and decoding exactly when both name tables know all its commands (`EncodeDecode`);
  everything the host queues qualifies (`BodiesDecode`).
- Each message is handed to the worker exactly once if and only if no exchange fails after the hand-over. A batch
  whose exchange failed is a prefix of the next one handed over, so its messages are sent again (`HandedOnce`,
  `FailedIsSentAgain`, `StartHandedTwice`).
- A Listen and a Push call the listener once exactly when one of them has looked before the other begins, and twice
  otherwise (`PairCallsExactly`, `OverlappingPairMayCallTwice`).
- Heartbeats find their own executions in every interleaving exactly when task tokens are distinct
  (`HeartbeatFindsItsExecution`, `SharedTokenLosesEntry`).
- A slice taken with `Messages` survives every sequence of pushes, but not a `Flush` followed by a push
  (`SnapshotSurvivesPushes`, `FlushedSnapshotIsOverwritten`).

## Model

| member | source | states |
|---|---|---|
| WorkflowInduction.RunKeeps | aggregatedpool/workflow.go:97-235 | A predicate on states that holds at the start and survives every primitive step (push, handler invocation, deferred callback, flush, take, drop, start, listen, respond, cancel) holds after every sequence of events |
| WorkflowInduction.TaskKeeps | aggregatedpool/workflow.go:144-196 | The same for one task, however it ends; the loop flag is then off and nothing is deferred |
| WorkflowInduction.HandleKeeps | aggregatedpool/handler.go:136-315 | The same for handling any command inside the loop, with whatever the environment invokes meanwhile |
| Listeners.ExactlyOnePlace | aggregatedpool/handler.go:136-401 | In every run, each handled command owed an answer is in exactly one place (outstanding in the environment, waiting in the registry, deferred, or answered once) unless it was replaced as a listener, and then in none; with one Listen per child none is replaced; only GetChildWorkflowExecution needs distinct child ids |
| Listeners.UnansweredIsHeld | aggregatedpool/handler.go:317-401 | A handled command without an answer is still held by the environment, the registry or the deferred list, unless a later listener for its child was stored before the child had started, which one Listen per child excludes |
| Listeners.LostExactly | registry/registry.go:23-43 | In every run a command is lost in the registry if and only if a later GetChildWorkflowExecution for the same child was handled before that child had started |
| Listeners.LostForGood | registry/registry.go:23-43 | Once a command is lost, no sequence of events makes anything be received for it |
| Listeners.ReplacedIsNeverAnswered | registry/registry.go:23-32 | In every run a replaced command is unanswered, and stays so in every continuation |
| Listeners.SecondListenOverwrites | registry/registry.go:23-32 | After a second Listen before the child has started, no continuation ever answers the first |
| Listeners.FireConserves | registry/registry.go:34-43 | Whatever handler the environment invokes, what a listener has received plus the start handlers still held for its child stays the same |
| Listeners.AnsweredAtMostOnce | registry/registry.go:34-43 | A listener is answered or deferred at most once under every sequence of firings if and only if what it has received plus the start handlers still held for its child is at most one |
| Listeners.ReusedChildIdAnswersTwice | aggregatedpool/handler.go:171-196 | Two children started under one id make the same listener's command answered twice |
| Settlement.BooksAlways | aggregatedpool/workflow.go:144-196 | The settlement invariant, with well-formed references from handlers, listeners, deferred completions and pushed answers to commands, holds after every run |
| Settlement.NoIdAnsweredTwice | aggregatedpool/handler.go:317-401 | If the worker never reuses an id, no two answers pushed in a whole run carry the same id |
| Answers.OutcomesAreConserved | aggregatedpool/handler.go:317-401 | In every run, the outcomes given to commands are exactly those read from the fields of their answers and those deferred, each as often as it was given |
| Answers.AnswerSaysWhatWasGiven | aggregatedpool/handler.go:349-362 | In every run an answer has failure e if and only if its command was given the failure e, and otherwise exactly the payloads it was given; it has no command and no header |
| Answers.VersionAnswer | aggregatedpool/handler.go:209-226 | A GetVersion is answered with the converted version under its id |
| Answers.SideEffectAnswer | aggregatedpool/handler.go:381-401 | A SideEffect is answered with what the environment passes to its callback, as payloads or as a failure |
| Answers.EndAnswer | aggregatedpool/handler.go:237-263 | A command that ends the run is answered with "completed", and then the environment is told once |
| Answers.EndMeans | aggregatedpool/handler.go:242-263 | What it is told: the payloads of a CompleteWorkflow without failure, the failure of one with, or name, input and header of a ContinueAsNew, and nothing for any other message |
| Answers.LateListenerHears | registry/registry.go:23-32 | A listener stored after its child has started is answered with what that start brought, unless another child under the id has started since |
| Replay.HandleAdmits | aggregatedpool/handler.go:136-315 | However its handling ends, a command is put on the books under its id and with the role that fits it exactly when it is answerable and not a GetVersion whose version cannot be converted; exactly the latter are recorded as such |
| Replay.TaskAdmits | aggregatedpool/workflow.go:178-195 | A task, panicking or not, keeps the commands on the books equal to the answerable commands taken, but for those recorded version requests |
| Replay.BooksComplete | aggregatedpool/workflow.go:178-195 | In every run, panicking tasks included, the entries on the books are those of the answerable commands taken, in order, each under its id and with a role that fits its command, except GetVersions whose version could not be converted, so settlement speaks of all of them |
| Replay.TurnTakes | aggregatedpool/workflow.go:178-195 | A turn of the loop takes exactly the head of the pipeline, whatever nested flushes append or a panic drops |
| Replay.ChildNamesFollowMessages | aggregatedpool/handler.go:161-169 | In every run the generated child ids and the child counter are determined by the run id and the number of nameless child requests taken, and what the environment is told about the end of the run by the CompleteWorkflow and ContinueAsNew messages taken |
| Replay.ReplayStableChildNames | aggregatedpool/handler.go:161-169 | Two executions of one run id that took the same messages generated the same child ids and ended the run the same way, whatever the shared counter and everything else were |
| Replay.ChildNamesDistinct | aggregatedpool/handler.go:166-169 | The ids generated in a run are pairwise distinct if and only if there are at most 2^64 of them |
| Replay.ChildNameReads | aggregatedpool/handler.go:168-168 | A generated id is the run id, an underscore and a numeral that reads back as the child counter |
| Replay.ItoaInjective | aggregatedpool/handler.go:168-168 | The decimal rendering of the counter, read as a signed 64-bit number, is injective |
| Cancellation.CancelNeverRaces | aggregatedpool/handler.go:290-303 | In every run, each cancel request was made with nothing deferred, reached a running operation exactly when that operation did not complete inside its own start call, and no operation was asked twice |
| Cancellation.EarlyMeansCompletedInStart | aggregatedpool/handler.go:143-149 | The operations recorded as early are exactly those whose result handler the environment invokes during the start call |
| Cancellation.EarlyElsewhere | aggregatedpool/handler.go:348-378 | No step other than a start call marks an operation as early |
| Cancellation.EarlyCompletionLeavesStaleCanceller | aggregatedpool/handler.go:143-149 | An activity completed inside its start call is answered and still leaves a canceller, and a later Cancel makes a request for it |
| CancelReach.RunningIsReachable | aggregatedpool/handler.go:140-207 | In every run without reused ids, every running operation that can be cancelled, has not been asked to, and is not a timer without a timer id has its own canceller registered under its id |
| CancelReach.CancelReaches | aggregatedpool/handler.go:290-303 | A Cancel naming such an operation asks the environment to cancel it if and only if it is not a timer without a timer id, for which nothing is called |
| CancelReach.CancelAsksExactly | canceller/canceller.go:21-36 | Whatever ids are reused, an id of a Cancel asks for an operation exactly when the canceller registered under it is that operation's own and not that of a timer without a timer id |
| CancelReach.CancelAllReaches | aggregatedpool/handler.go:290-303 | Without reused ids, once a Cancel has gone through its ids every running operation it names has been asked to cancel or has completed meanwhile |
| CancelReach.AskedOrRegistered | aggregatedpool/handler.go:140-207 | In every run without reused ids, a running operation that can be cancelled has been asked to if and only if its canceller is gone from the table |
| CancelReach.ReusedIdHidesOperation | aggregatedpool/handler.go:145-149 | With a reused id the second canceller replaces the first, so that a Cancel misses the first operation, and the first completion discards the canceller of the second |
| Dispatch.OnlyTheseAreAsked | aggregatedpool/handler.go:136-207 | In every run only operations of ExecuteActivity, ExecuteLocalActivity, ExecuteChildWorkflow and NewTimer messages are asked to cancel, and only timers lack a timer id |
| Dispatch.TheseAreReachable | aggregatedpool/handler.go:136-207 | In every run without reused ids, the running operation of such a message has its canceller under the message's id, unless it has been asked or is a timer without a timer id |
| Dispatch.StartThenCancelAsks | aggregatedpool/handler.go:140-207 | Handling such a command and then a Cancel that names it first asks for it, unless it is a timer without a timer id |
| Dispatch.ExternalIsNeverAsked | aggregatedpool/handler.go:272-288 | A SignalExternalWorkflow or CancelExternalWorkflow is never asked to cancel, whatever a Cancel names |
| Dispatch.HandlersAreTaken | aggregatedpool/handler.go:140-207 | Each command that starts an operation gives the environment a result handler under its id, and an ExecuteChildWorkflow a start handler too |
| Dispatch.ChildStartsUnderItsName | aggregatedpool/handler.go:161-178 | A child is started under the workflow id asked for, or under the one generated for it |
| Ordering.IncomingOrder | aggregatedpool/workflow.go:178-195 | In every run the messages that left the pipeline followed by the pipeline are the concatenation of all decoded batches, nested flushes included |
| Ordering.TaskTakesAll | aggregatedpool/workflow.go:144-196 | A task that returns normally has taken every decoded message, dropped none, and left the pipeline empty |
| Ordering.LoopTakesAll | aggregatedpool/workflow.go:178-195 | The loop, when it ends normally, has taken and not dropped everything and extends the record of what was taken before |
| Ordering.PanicClearsPipeline | aggregatedpool/workflow.go:163-195 | A panicking task leaves its input untouched if its first flush failed; otherwise its pipeline is empty if and only if the message it panicked on is not a SideEffect or was the only one left |
| Ordering.TurnPanics | aggregatedpool/workflow.go:178-195 | A panicking turn leaves the pipeline empty if and only if its message is not a SideEffect or was the only one; a SideEffect leaves exactly the messages behind it |
| Dispatch.WhenTurnPanics | aggregatedpool/workflow.go:178-195 | A turn panics if and only if its message is an UndefinedResponse, a Panic with a failure, a command only the host sends, a refused upsert, a GetVersion that cannot be converted or whose flush fails, a Cancel whose flush fails, or a SideEffect with a good result whose flush fails |
| Ordering.SideEffectPanics | aggregatedpool/handler.go:381-401 | A SideEffect panics if and only if its result is good and its answer cannot be encoded or the reply does not decode |
| Ordering.SideEffectPanicKeepsPipeline | aggregatedpool/handler.go:392-395 | In a run whose first task is sent a side effect and a timer request and whose worker then fails, the timer request is still in the pipeline afterwards |
| Ordering.OutgoingOrder | aggregatedpool/handler.go:404-461 | In every run, until Close, acknowledged frames followed by the queue are the history of all pushes, in order |
| Ordering.CloseDiscards | aggregatedpool/workflow.go:225-235 | In every run that ends with Close, the pushes of the whole run are the acknowledged frames followed by exactly what was queued at Close and never sent |
| Ordering.QueuedGoesNext | aggregatedpool/handler.go:404-461 | Whatever heads the queue at some point of a run heads the next frame acknowledged before Close, however many exchanges fail until then |
| Ordering.StartComesFirst | aggregatedpool/workflow.go:97-136 | In every run the first message pushed is StartWorkflow with the run's input, and until Close it heads the first acknowledged frame, or the queue if there is none, failed first tasks included |
| Ordering.StartCarries | aggregatedpool/workflow.go:116-135 | The start command carries the input, then the last completion's payloads, and says how many those are |
| Delivery.FlushIsAllOrNothing | aggregatedpool/handler.go:404-461 | A flush of a non-empty queue succeeds if and only if every message packs and marshals and the worker returns a readable body; on failure queue and pipeline are unchanged; on success the queue is empty and the pipeline gains exactly what the returned body reads; whenever a body is sent it decodes to the whole queue |
| Delivery.BodiesDecode | internal/codec/proto/proto.go:36-103 | In every run every body handed to the worker by a flush, acknowledged or not, decodes to the batch flushed, because everything the host queues is known to both name tables |
| Delivery.WorkerReceivesPushes | aggregatedpool/handler.go:404-461 | In every run until Close, what the worker decodes from the bodies it has acknowledged, followed by the queue, is everything the host ever pushed, in order |
| Delivery.FailedIsSentAgain | aggregatedpool/handler.go:424-452 | In every run the frames are exactly the batches acknowledged, and until Close every batch whose exchange failed after the hand-over is a prefix of the next one handed over, or of the queue |
| Delivery.HandedOnce | aggregatedpool/handler.go:424-452 | In every run until Close, what all bodies handed over decode to, followed by the queue, is everything pushed if and only if no exchange failed after the hand-over |
| Delivery.StartHandedTwice | aggregatedpool/handler.go:429-445 | In a run whose worker fails on the first batch, StartWorkflow is handed over twice and acknowledged once |
| Exchanges.CancelBatch | aggregatedpool/handler.go:290-303 | The batch a Cancel flushes is the prior queue, then what each cancelled operation pushed in the order of the ids, then its own completed answer; only the flush can fail |
| Exchanges.CancelGroupIsOwn | canceller/canceller.go:21-36 | If a request completes nothing but its own operation, each id contributes at most one message, which carries that id |
| Exchanges.FireAllPushes | aggregatedpool/handler.go:348-378 | Inside the loop a series of handler invocations pushes exactly the answers of the handlers still held, in order |
| Exchanges.FirstFrame | aggregatedpool/workflow.go:144-167 | In every run, the first frame acknowledged in a task is the residue of the last task, then the commands that arrived since, then the completions that arrived since, both in arrival order |
| Exchanges.TaskEndsQuiet | aggregatedpool/workflow.go:144-196 | Every task, panicking or not, ends outside the loop with nothing deferred |
| Exchanges.TaskExchanges | aggregatedpool/handler.go:209-235 | A task makes at most one exchange more than the GetVersion, SideEffect and Cancel messages it takes |
| Exchanges.LoopBounded | aggregatedpool/workflow.go:178-195 | The loop consumes no more messages than the pipeline holds and the worker has left to send |
| UpdateProtocol.UpdateTrace | aggregatedpool/handler.go:38-91 | Whatever the worker replies, an update leaves exactly one legal trace of its callbacks |
| UpdateProtocol.UpdateFollowsWorker | aggregatedpool/handler.go:45-88 | The trace follows what the worker's replies decode to: a validation that returns no value rejects the update with that reason, else it is accepted and completes with what the execution returned; replay skips validation |
| UpdateProtocol.ValidatorRefuses | aggregatedpool/handler.go:47-65 | A live update whose validation reply decodes to one message with failure e is rejected with e, and execution is not sent |
| UpdateProtocol.UpdateIsInvoked | aggregatedpool/handler.go:69-74 | A queued update is invoked under its own id and name, with its own input and header |
| UpdateProtocol.LegalTraces | aggregatedpool/handler.go:45-88 | A legal trace is Reject alone or Accept then Complete; execution happens if and only if accepted; replay neither validates nor rejects |
| UpdateProtocol.TaskHandlesUpdates | aggregatedpool/workflow.go:169-176 | A task whose first flush succeeds handles every queued update, even if it panics later; otherwise updates are left as they were |
| UpdateProtocol.CloseHandlesUpdates | aggregatedpool/workflow.go:225-235 | Close handles every update still queued |
| UpdateProtocol.UpdatesExactlyOnce | aggregatedpool/handler.go:38-91 | In every run each update received is either queued once with an empty trace, or handled with one legal trace; duplicate names included |
| UpdateProtocol.TaskLeavesNoUpdate | aggregatedpool/workflow.go:169-176 | After a task that returns normally every update received before it has been handled exactly once |
| Requests.CommandReports | aggregatedpool/handler.go:464-521 | A command sent alone carries the next id and its payloads and header, is what is handed over, and yields the payloads of the one message the reply decodes to, its failure, or an error for any other reply |
| Requests.ReportsOnce | aggregatedpool/handler.go:507-520 | There is only one result that says what the worker returned |
| Requests.QueryReports | aggregatedpool/handler.go:117-133 | A query sends InvokeQuery with its name, arguments and header, and returns the payloads, the failure or the error of that exchange |
| Requests.TraceSends | aggregatedpool/workflow.go:199-206 | A stack trace sends GetStackTrace with the header of the run |
| Requests.CloseSends | aggregatedpool/workflow.go:225-235 | The last message Close sends is DestroyWorkflow for the run |
| CommandIds.AlwaysInOrder | aggregatedpool/workflow.go:36-41 | Under every interleaving of workflows the ids drawn are 1, 2, 3 and so on modulo 2^64 |
| CommandIds.IdsAreFresh | queue/queue.go:33-49 | The ids drawn are pairwise distinct and never 0 if and only if fewer than 2^64 have been drawn |
| CommandIds.QueuesIncrease | queue/queue.go:40-64 | Before the counter wraps, the commands of every queue carry strictly increasing ids, however answers are mixed in |
| CommandIds.RunIdsIncrease | queue/queue.go:40-49 | In every run, while fewer than 2^64 ids have been drawn by it and others, the commands it pushes, and those in its queue, carry strictly increasing ids that are never 0 |
| RegistryRendezvous.NoLostWakeup | registry/registry.go:23-43 | In every interleaving of any number of Listen and Push calls, once some Push on an id and the last stored Listen on it have finished, that listener has been called with an entry pushed for that id |
| RegistryRendezvous.PairCallsOnceOrTwice | registry/registry.go:23-43 | A single Listen and a single Push that have finished have called the listener once or twice |
| RegistryRendezvous.PairCallsExactly | registry/registry.go:23-43 | A finished pair has called the listener once if at some point one of them had looked while the other had not begun, and twice otherwise |
| RegistryRendezvous.SequentialPairCallsOnce | registry/registry.go:23-43 | If one of the two finished before the other began, there is exactly one call |
| RegistryRendezvous.OverlappingPairMayCallTwice | registry/registry.go:23-43 | Two calls happen when both store before either looks |
| Cancellers.Canceller.Register | canceller/canceller.go:13-15 | Stores the function under the id, replacing any other |
| Cancellers.Canceller.Discard | canceller/canceller.go:17-19 | Removes the id and nothing else |
| Cancellers.Canceller.LoadAndDelete | canceller/canceller.go:24-24 | Returns and removes the entry in one step |
| Cancellers.CancelIds | canceller/canceller.go:21-36 | The loop leaves the table, and returns the success, of the specification, with functions that discard entries while it runs |
| Cancellers.RunsAtMostOnce | canceller/canceller.go:13-36 | For every sequence of Register, Discard and Cancel a registration ends at most once, so its function runs at most once and never after it was discarded |
| Cancellers.CancelRemoves | canceller/canceller.go:21-36 | Cancel removes exactly the ids it looked at and those its functions discarded, and leaves all other entries as they were |
| Cancellers.SuccessClears | canceller/canceller.go:21-36 | A successful Cancel leaves none of its ids registered |
| Cancellers.FailureSpares | canceller/canceller.go:30-33 | A failing Cancel leaves a later id untouched unless it was named earlier or discarded by a function that ran |
| Cancellers.CancelFailsExactly | canceller/canceller.go:21-36 | Cancel fails exactly at a function that fails, and succeeds only if every failing function it names was discarded by one run before it |
| MessageQueues.SeqCounter.Next | aggregatedpool/workflow.go:37-41 | Draws the next id, wrapping at 2^64 |
| MessageQueues.MessageQueue.constructor | queue/queue.go:17-22 | An empty queue over a new array |
| MessageQueues.MessageQueue.Append | queue/queue.go:42-47 | Adds one message at the end, in place or in a new array, and leaves the elements of older slices alone |
| MessageQueues.MessageQueue.PushCommand | queue/queue.go:40-49 | Adds a command with a newly drawn id |
| MessageQueues.MessageQueue.PushResponse | queue/queue.go:51-58 | Adds a message with the given id and payloads and nothing else |
| MessageQueues.MessageQueue.PushError | queue/queue.go:60-64 | Adds a message with the given id and failure and nothing else |
| MessageQueues.MessageQueue.AllocateMessage | queue/queue.go:33-38 | Draws an id for a message that does not enter the queue |
| MessageQueues.MessageQueue.Flush | queue/queue.go:24-28 | Empties the queue without giving up its array |
| MessageQueues.MessageQueue.Messages | queue/queue.go:66-70 | Returns a slice of the live array that shows the queue |
| MessageQueues.SnapshotSurvivesPushes | queue/queue.go:40-70 | A slice taken before any sequence of pushes still shows what the queue held then, while the queue gains exactly what was pushed |
| MessageQueues.FlushedSnapshotIsOverwritten | queue/queue.go:24-28 | A slice taken before Flush shows the first message pushed after it |
| Protocol.SentNamesAreReceived | internal/protocol.go:376-511 | Every name sent is understood as the same command on receipt, except InvokeLocalActivity |
| Protocol.ReceivedNamesAreSent | internal/protocol.go:376-511 | Every name understood is the name of the command it stands for, except UndefinedResponse |
| Protocol.NamesDiffer | internal/protocol.go:376-430 | No two commands are sent under one name |
| Codec.MessageRoundTrip | internal/codec/proto/proto.go:140-189 | A message can be packed exactly when its command is not UndefinedResponse, and parses back to itself exactly when both tables know its command |
| Codec.PackedUnderItsName | internal/codec/proto/proto.go:140-163 | A packed command is on the wire under its own literal name, both ways, with its own options; the message carries the history length and run id of the context |
| Codec.ParsedAsItsName | internal/codec/proto/proto.go:165-189 | A named wire message is parsed by unmarshalling its options as the kind its literal name stands for, both ways; everything else is passed on as it is |
| Codec.BatchRoundTrip | internal/codec/proto/proto.go:36-103 | Parsing a packed batch succeeds exactly when all its commands are known, then gives the batch back, and otherwise stops at a prefix of it |
| Codec.EncodeDecode | internal/codec/proto/proto.go:36-103 | Decoding an encoded batch gives it back, in order, if and only if both name tables know every command in it |
| Codec.SentIsReceived | internal/codec/proto/proto.go:36-103 | A batch can be encoded if and only if every message packs and the libraries marshal context and frame; if its commands are known, it then decodes to itself |
| Codec.DecodedReads | internal/codec/proto/proto.go:77-103 | Decoding succeeds exactly on bodies that are empty or unmarshal to messages that all parse, and then yields the parse of each, in order |
| Codec.Encode | internal/codec/proto/proto.go:36-75 | The loop computes the encoded body and context; a failure leaves the old body or none; an empty batch writes nothing |
| Codec.Decode | internal/codec/proto/proto.go:77-103 | The loop returns the decoded messages, or a failure together with the messages parsed before it |
| Pools.PayloadPool.Get | aggregatedpool/handler.go:523-525 | Hands out a cleared payload that is no longer in the pool |
| Pools.PayloadPool.Put | aggregatedpool/handler.go:527-532 | Clears codec, context and body and adds a payload that was not in the pool |
| Pools.PayloadsAreExclusive | aggregatedpool/activity.go:94-160 | In every interleaving a payload is pooled or held by one execution, never both or by two, and pooled payloads are cleared |
| Pools.OnlyTheHolderWrites | aggregatedpool/activity.go:94-160 | The content of a held payload changes only by its holder's own writes |
| Pools.FrameCodec.Decode | internal/codec/proto/proto.go:83-99 | Returns new messages that say what the body says up to the first that does not parse, while the frame is reset and returned to its pool on every exit |
| Pools.DecodeTwice | internal/codec/proto/proto.go:191-198 | Decoding again into the same pooled frame leaves the messages of the first batch as they were |
| Activities.Activity.GetActivityContext | aggregatedpool/activity.go:49-57 | Finds the context stored under the token, or fails |
| Activities.Activity.Execute | aggregatedpool/activity.go:59-149 | The ending is the payloads of the one message the reply decodes to, pending if that message fails with the agreed text, an error for any other failure and any other reply; the payload returns to the pool on every path, and the entry is removed except after an encoding failure or when there are details but no arguments |
| Activities.InvokeCarries | aggregatedpool/activity.go:79-92 | The invocation carries the arguments followed by the heartbeat details, and says how many of them are details |
| Activities.HeartbeatFindsItsExecution | aggregatedpool/activity.go:49-109 | In every interleaving each heartbeat succeeds exactly between its own execution's Store and Delete, or after that execution left without Delete, and finds its context, if and only if task tokens are distinct |
| Activities.SharedTokenLosesEntry | aggregatedpool/activity.go:105-109 | For any two executions with one token there is an interleaving in which the first to finish removes the entry of the one still running |
| Workflows.IDRegistry.StoreListener | registry/registry.go:24-24 | Stores the listener, replacing any other for that child |
| Workflows.IDRegistry.StoreEntry | registry/registry.go:35-35 | Stores the entry of a started child |
| Workflows.Workflow.Execute | aggregatedpool/workflow.go:97-136 | A new object is in the initial state of the model, with StartWorkflow queued |
| Workflows.Workflow.HandleSignal | aggregatedpool/handler.go:103-114 | Queues InvokeSignal, as the model's step does |
| Workflows.Workflow.HandleCancelRequest | aggregatedpool/handler.go:94-100 | Queues CancelWorkflow, as the model's step does |
| Workflows.Workflow.HandleUpdate | aggregatedpool/handler.go:38-43 | Remembers the name and gives the environment the update with its id, input and header |
| Workflows.Workflow.Callback | aggregatedpool/handler.go:349-362 | Discards the canceller and pushes the answer |
| Workflows.Workflow.OnResult | aggregatedpool/handler.go:364-377 | Inside the loop answers at once, outside of it defers |
| Workflows.Workflow.OnChildStarted | registry/registry.go:34-43 | Stores the entry, then passes it to the listener if there is one |
| Workflows.Workflow.ListenForChild | aggregatedpool/handler.go:180-196 | Stores the listener, then answers if the child has started |
| Workflows.Workflow.EnvCall | aggregatedpool/handler.go:317-378 | Handlers invoked during a call into the environment take effect in order before it returns |
| Workflows.Workflow.Exchange | aggregatedpool/handler.go:418-458 | Encode what the slice shows, exec, error, stream, empty response, decode: at every failing exit queue and pipeline are as before; on success the body sent decodes to what was queued and the pipeline gains what the reply decodes to |
| Workflows.Workflow.FlushQueue | aggregatedpool/handler.go:404-461 | Refines the model's flush; a failure leaves queue and pipeline alone; the payload is back in its pool on every exit |
| Workflows.Workflow.ExchangeOne | aggregatedpool/handler.go:474-521 | Refines sending one message alone, stage by stage; the payload goes back to the pool once on every exit but those that reject the worker's answer, which keep it out |
| Workflows.Workflow.RunOneCommand | aggregatedpool/handler.go:464-521 | Refines the model's single command: a new id, the given payloads and header, queue untouched, exactly one message back or a failure |
| Workflows.Workflow.StartOperation | aggregatedpool/handler.go:140-159 | The environment takes the handlers and may invoke them; the canceller is registered afterwards |
| Workflows.Workflow.StartChild | aggregatedpool/handler.go:161-178 | A nameless child is given the run id and the child counter as its workflow id, and is started under it |
| Workflows.Workflow.AnswerVersion | aggregatedpool/handler.go:209-226 | Answers and flushes; a failure is an error |
| Workflows.Workflow.AnswerSideEffect | aggregatedpool/handler.go:228-235 | Answers and flushes inside the environment's call; a failed flush panics |
| Workflows.Workflow.CancelCommand | canceller/canceller.go:23-29 | Removes the entry before the request it makes, during which handlers may run |
| Workflows.Workflow.CancelCommands | canceller/canceller.go:21-36 | The loop over the ids refines the model's recursion |
| Workflows.Workflow.AnswerCancel | aggregatedpool/handler.go:290-303 | Cancels the ids, answers the Cancel, flushes |
| Workflows.Workflow.EndRun | aggregatedpool/handler.go:237-263 | Answers CompleteWorkflow and ContinueAsNew, then tells the environment the result, the failure, or how the run continues |
| Workflows.Workflow.HandleOther | aggregatedpool/handler.go:180-312 | The commands that start no operation, with an error for any command the host does not handle |
| Workflows.Workflow.HandleMessage | aggregatedpool/handler.go:136-315 | Refines the model's handling of every command |
| Workflows.Workflow.RunUpdateCallback | aggregatedpool/handler.go:45-88 | Validates unless replaying, then rejects or performs |
| Workflows.Workflow.PerformUpdate | aggregatedpool/handler.go:67-87 | Accepts, executes, completes with the payloads, the failure, or an error |
| Workflows.Workflow.RunQueuedUpdates | aggregatedpool/workflow.go:169-176 | Handles the updates queued under each remembered name, then forgets the names |
| Workflows.Workflow.RunDeferred | aggregatedpool/workflow.go:152-161 | Running the deferred callbacks by index and dropping the list refines running them from its head |
| Workflows.Workflow.ProcessHead | aggregatedpool/workflow.go:178-195 | One turn of the loop, with the pipeline cleared on an error or an undefined response |
| Workflows.Workflow.ProcessPipeline | aggregatedpool/workflow.go:178-195 | The loop terminates for every finite worker and refines the model's loop |
| Workflows.Workflow.FirstFlush | aggregatedpool/workflow.go:145-167 | Deferred callbacks run inside the loop, then everything queued is flushed |
| Workflows.Workflow.OnWorkflowTaskStarted | aggregatedpool/workflow.go:144-196 | Refines the model's task; the loop flag is reset on every exit |
| Workflows.Workflow.HandleQuery | aggregatedpool/handler.go:117-133 | A query is one command sent alone; its result is the payloads of the one message returned, its failure, or an error |
| Workflows.Workflow.StackTrace | aggregatedpool/workflow.go:199-209 | A stack trace is one command sent alone, which changes nothing but the counter |
| Workflows.Workflow.DrainUnhandledUpdates | aggregatedpool/workflow.go:225-230 | Every update still queued is run, in order |
| Workflows.Workflow.Close | aggregatedpool/workflow.go:225-235 | Drains updates, tells the worker, discards the queue |
| Workflows.Workflow.React | aggregatedpool/workflow.go:97-235 | Every event changes the object as the model's step changes the state |
| Workflows.Workflow.ReactAll | aggregatedpool/workflow.go:97-235 | Every sequence of events does too |
| Workflows.Play | aggregatedpool/workflow.go:97-235 | A new object that goes through any events is in the state the theorems about runs speak of |

## Left out

- Process pools, plugin wiring, RPC, configuration, TLS, metrics and logging: mostly calls into libraries, with
  single-branch checks of their own.
- `aggregatedpool/local_activity.go`: the exchange of `activity.go` without the table of running executions; it would
  only add easy members. Local activities appear as operations of the environment.
- `aggregatedpool/workers.go`, `aggregatedpool/interceptor.go`, `internal/worker_info.go`, `DecodeWorkerInfo`:
  registration glue. That id 0 is reserved for the worker info exchange is part of `IdsAreFresh`.
- The byte formats of protobuf and JSON: the libraries are parameters. Theorems that need it assume that they invert
  on what they can marshal and that a non-empty frame has a non-empty body.
- The data converter and the failure converter: payloads and failures are opaque values. That the failure converter
  maps a missing failure to no error, so that a Panic without a failure is passed over, is taken from the SDK.
- Workflows.Workflow.HandleMessage: the parameters of the operations started (activity, local activity, child workflow
  and timer options, targets of external signals) are not modelled, except the workflow id of a child.
- Workflows.Workflow.EndRun: the timeouts and task queue a ContinueAsNew carries are not modelled; what Temporal does
  with the end of a run is outside.
- Panics raised inside calls into the environment, for example by a version out of range or a side effect out of step
  with the history. They would leave the task without clearing the pipeline, as a side effect's panic does.
- Wall-clock time, and the tick time and history length of the context beyond being passed to the codec.
- Workflows.Workflow.ListenForChild: the panic when a child execution cannot be converted to payloads
  (aggregatedpool/handler.go:190-193) is not modelled; an execution is a pair of strings.
- Workflows.Workflow.AnswerSideEffect: the function it gives the environment returns the payloads of the message; whether
  they or recorded ones reach the callback is up to the environment, which is taken to invoke the side effect callback once,
  synchronously and as the last thing in its call, as the SDK does.
- Workflows.Workflow.StackTrace: the text made of the worker's message is not modelled.
- UpdateProtocol.TaskHandlesUpdates: the environment's `HandleQueuedUpdates` is taken to run and forget all updates
  queued under the name, and `DrainUnhandledUpdates` to run all of them; neither invokes other handlers.
- Pools.FrameCodec.Decode: a message is an id, payloads and whether it parses; the method is about what frames and
  returned messages share. What parsing yields is in `Codec.Decode`.
- RegistryRendezvous.NoLostWakeup: a listener that calls back into the registry, which would block on its mutex, is
  not modelled.
- Cancellers.CancelIds: functions may discard entries and fail, but not register new ones while they run.
- Messages are values; that the queue holds pointers to them, and that callers could change a message after pushing
  it, is not modelled. Aliasing of the queue's array, of payloads and of decoded messages is.
- Ids chosen by the worker are unbounded numbers; only the two counters wrap.
