/** The batch codec. The JSON and protobuf libraries are parameters; only that they invert is assumed. */
module Codec {
  import opened Protocol

  type Bytes = string

  datatype Context = Context(taskQueue: string, tickTime: string, replay: bool, historyLength: int, rrId: string)

  /** A message of the wire format. An empty `command` means the message carries none. */
  datatype Wire = Wire(id: Id, command: string, options: Bytes, failure: Failure, payloads: Payloads,
                       header: Header, historyLength: int, runId: string)

  /** The marshalling libraries. Unmarshalling options may yield no command at all: JSON's null. */
  datatype Formats = Formats(
    marshalOptions: Command -> Option<Bytes>,
    unmarshalOptions: (Kind, Bytes) -> Option<Option<Command>>,
    marshalContext: Context -> Option<Bytes>,
    marshalFrame: seq<Wire> -> Option<Bytes>,
    unmarshalFrame: Bytes -> Option<seq<Wire>>)

  ghost predicate Inverts(f: Formats)
  {
    && (forall c: Command :: f.marshalOptions(c).Some? ==>
          f.unmarshalOptions(KindOf(c), f.marshalOptions(c).value) == Some(Some(c)))
    && (forall ws: seq<Wire> :: f.marshalFrame(ws).Some? ==>
          f.unmarshalFrame(f.marshalFrame(ws).value) == Some(ws) && (ws != [] ==> f.marshalFrame(ws).value != []))
  }

  // ---------------------------------------------------------------------------------------------
  // Single messages
  // ---------------------------------------------------------------------------------------------

  /** `packMessage`. */
  function Pack(f: Formats, ctx: Context, m: Message): Option<Wire>
  {
    var plain := Wire(m.id, "", "", m.failure, m.payloads, m.header, ctx.historyLength, ctx.rrId);
    if m.command.None? then Some(plain)
    else
      var name := CommandName(KindOf(m.command.value));
      var options := f.marshalOptions(m.command.value);
      if name.None? || options.None? then None
      else Some(plain.(command := name.value, options := options.value))
  }

  /** `parseMessage`. */
  function Parse(f: Formats, w: Wire): Option<Message>
  {
    var plain := Message(w.id, None, w.failure, w.payloads, w.header);
    if w.command == "" then Some(plain)
    else
      match InitCommand(w.command)
      case None => None
      case Some(kind) =>
        match f.unmarshalOptions(kind, w.options)
        case None => None
        case Some(command) => Some(plain.(command := command))
  }

  /** The command of the message is known to both name tables, or there is none. */
  predicate Known(m: Message)
  {
    m.command.None? || (!m.command.value.InvokeLocalActivity? && !m.command.value.UndefinedResponse?)
  }

  /** Every part of the message can be marshalled. */
  predicate Marshals(f: Formats, m: Message) { m.command.Some? ==> f.marshalOptions(m.command.value).Some? }

  /** Which names a command has on the way out and on the way in. */
  lemma NamesOf(c: Command)
    ensures var name := CommandName(KindOf(c));
            && (name.None? <==> c.UndefinedResponse?)
            && name != Some("")
            && (name.Some? ==>
                  InitCommand(name.value) == if c.InvokeLocalActivity? then None else Some(KindOf(c)))
  {
    if !c.UndefinedResponse? {
      SentNamesAreReceived(KindOf(c));
    }
  }

  /** A single message survives the trip exactly when both tables know its command: UndefinedResponse cannot
      be packed, InvokeLocalActivity cannot be parsed. */
  lemma {:induction false} MessageRoundTrip(f: Formats, ctx: Context, m: Message)
    requires Inverts(f) && Marshals(f, m)
    ensures Pack(f, ctx, m).Some? <==> m.command.None? || !m.command.value.UndefinedResponse?
    ensures Pack(f, ctx, m).Some? ==> Parse(f, Pack(f, ctx, m).value) == if Known(m) then Some(m) else None
  {
    if m.command.Some? {
      NamesOf(m.command.value);
    }
  }

  // ---------------------------------------------------------------------------------------------
  // Names on the wire
  // ---------------------------------------------------------------------------------------------

  predicate InvocationWire(c: Command, name: string)
  {
    && (c.InvokeActivity? <==> name == "InvokeActivity")
    && (c.StartWorkflow? <==> name == "StartWorkflow")
    && (c.InvokeSignal? <==> name == "InvokeSignal")
    && (c.InvokeQuery? <==> name == "InvokeQuery")
    && (c.InvokeUpdate? <==> name == "InvokeUpdate")
  }

  predicate InvocationKinds(k: Kind, name: string)
  {
    && (k.InvokeActivityKind? <==> name == "InvokeActivity")
    && (k.StartWorkflowKind? <==> name == "StartWorkflow")
    && (k.InvokeSignalKind? <==> name == "InvokeSignal")
    && (k.InvokeQueryKind? <==> name == "InvokeQuery")
    && (k.InvokeUpdateKind? <==> name == "InvokeUpdate")
  }

  predicate HousekeepingWire(c: Command, name: string)
  {
    && (c.GetWorkerInfo? <==> name == "GetWorkerInfo")
    && (c.DestroyWorkflow? <==> name == "DestroyWorkflow")
    && (c.CancelWorkflow? <==> name == "CancelWorkflow")
    && (c.GetStackTrace? <==> name == "StackTrace")
  }

  predicate HousekeepingKinds(k: Kind, name: string)
  {
    && (k.GetWorkerInfoKind? <==> name == "GetWorkerInfo")
    && (k.DestroyWorkflowKind? <==> name == "DestroyWorkflow")
    && (k.CancelWorkflowKind? <==> name == "CancelWorkflow")
    && (k.GetStackTraceKind? <==> name == "StackTrace")
  }

  predicate OperationWire(c: Command, name: string)
  {
    && (c.ExecuteActivity? <==> name == "ExecuteActivity")
    && (c.ExecuteLocalActivity? <==> name == "ExecuteLocalActivity")
    && (c.ExecuteChildWorkflow? <==> name == "ExecuteChildWorkflow")
    && (c.NewTimer? <==> name == "NewTimer")
  }

  predicate OperationKinds(k: Kind, name: string)
  {
    && (k.ExecuteActivityKind? <==> name == "ExecuteActivity")
    && (k.ExecuteLocalActivityKind? <==> name == "ExecuteLocalActivity")
    && (k.ExecuteChildWorkflowKind? <==> name == "ExecuteChildWorkflow")
    && (k.NewTimerKind? <==> name == "NewTimer")
  }

  predicate ExternalWire(c: Command, name: string)
  {
    && (c.GetChildWorkflowExecution? <==> name == "GetChildWorkflowExecution")
    && (c.SignalExternalWorkflow? <==> name == "SignalExternalWorkflow")
    && (c.CancelExternalWorkflow? <==> name == "CancelExternalWorkflow")
    && (c.UpsertWorkflowSearchAttributes? <==> name == "UpsertWorkflowSearchAttributes")
  }

  predicate ExternalKinds(k: Kind, name: string)
  {
    && (k.GetChildWorkflowExecutionKind? <==> name == "GetChildWorkflowExecution")
    && (k.SignalExternalWorkflowKind? <==> name == "SignalExternalWorkflow")
    && (k.CancelExternalWorkflowKind? <==> name == "CancelExternalWorkflow")
    && (k.UpsertWorkflowSearchAttributesKind? <==> name == "UpsertWorkflowSearchAttributes")
  }

  predicate ImmediateWire(c: Command, name: string)
  {
    && (c.GetVersion? <==> name == "GetVersion")
    && (c.SideEffect? <==> name == "SideEffect")
    && (c.Cancel? <==> name == "Cancel")
  }

  predicate ImmediateKinds(k: Kind, name: string)
  {
    && (k.GetVersionKind? <==> name == "GetVersion")
    && (k.SideEffectKind? <==> name == "SideEffect")
    && (k.CancelKind? <==> name == "Cancel")
  }

  predicate OutcomeWire(c: Command, name: string)
  {
    && (c.CompleteWorkflow? <==> name == "CompleteWorkflow")
    && (c.ContinueAsNew? <==> name == "ContinueAsNew")
    && (c.Panic? <==> name == "Panic")
  }

  predicate OutcomeKinds(k: Kind, name: string)
  {
    && (k.CompleteWorkflowKind? <==> name == "CompleteWorkflow")
    && (k.ContinueAsNewKind? <==> name == "ContinueAsNew")
    && (k.PanicKind? <==> name == "Panic")
  }

  /** `k` is the one kind of command sent under the name. */
  ghost predicate StandsFor(k: Kind, name: string)
  {
    forall q :: CommandName(q).Some? ==> (k == q <==> CommandName(q) == Some(name))
  }

  lemma SentStandsFor(k: Kind, name: string)
    requires CommandName(k) == Some(name)
    ensures StandsFor(k, name)
  {
    forall q | CommandName(q) == Some(name) ensures k == q {
      NamesDiffer(k, q);
    }
  }

  lemma ReceivedStandsFor(name: string)
    requires InitCommand(name).Some?
    ensures StandsFor(InitCommand(name).value, name)
  {
    ReceivedNamesAreSent(name);
    forall q | CommandName(q) == Some(name) ensures InitCommand(name) == Some(q) {
      NameStandsFor(name, q);
    }
  }

  lemma InvocationStandFor(k: Kind, name: string)
    requires StandsFor(k, name)
    ensures InvocationKinds(k, name)
  {
    assert CommandName(InvokeActivityKind) == Some("InvokeActivity");
    assert CommandName(StartWorkflowKind) == Some("StartWorkflow");
    assert CommandName(InvokeSignalKind) == Some("InvokeSignal");
    assert CommandName(InvokeQueryKind) == Some("InvokeQuery");
    assert CommandName(InvokeUpdateKind) == Some("InvokeUpdate");
  }

  lemma HousekeepingStandFor(k: Kind, name: string)
    requires StandsFor(k, name)
    ensures HousekeepingKinds(k, name)
  {
    assert CommandName(GetWorkerInfoKind) == Some("GetWorkerInfo");
    assert CommandName(DestroyWorkflowKind) == Some("DestroyWorkflow");
    assert CommandName(CancelWorkflowKind) == Some("CancelWorkflow");
    assert CommandName(GetStackTraceKind) == Some("StackTrace");
  }

  lemma OperationStandFor(k: Kind, name: string)
    requires StandsFor(k, name)
    ensures OperationKinds(k, name)
  {
    assert CommandName(ExecuteActivityKind) == Some("ExecuteActivity");
    assert CommandName(ExecuteLocalActivityKind) == Some("ExecuteLocalActivity");
    assert CommandName(ExecuteChildWorkflowKind) == Some("ExecuteChildWorkflow");
    assert CommandName(NewTimerKind) == Some("NewTimer");
  }

  lemma ExternalStandFor(k: Kind, name: string)
    requires StandsFor(k, name)
    ensures ExternalKinds(k, name)
  {
    assert CommandName(GetChildWorkflowExecutionKind) == Some("GetChildWorkflowExecution");
    assert CommandName(SignalExternalWorkflowKind) == Some("SignalExternalWorkflow");
    assert CommandName(CancelExternalWorkflowKind) == Some("CancelExternalWorkflow");
    assert CommandName(UpsertWorkflowSearchAttributesKind) == Some("UpsertWorkflowSearchAttributes");
  }

  lemma ImmediateStandFor(k: Kind, name: string)
    requires StandsFor(k, name)
    ensures ImmediateKinds(k, name)
  {
    assert CommandName(GetVersionKind) == Some("GetVersion");
    assert CommandName(SideEffectKind) == Some("SideEffect");
    assert CommandName(CancelKind) == Some("Cancel");
  }

  lemma OutcomeStandFor(k: Kind, name: string)
    requires StandsFor(k, name)
    ensures OutcomeKinds(k, name)
  {
    assert CommandName(CompleteWorkflowKind) == Some("CompleteWorkflow");
    assert CommandName(ContinueAsNewKind) == Some("ContinueAsNew");
    assert CommandName(PanicKind) == Some("Panic");
  }

  predicate AllKinds(k: Kind, name: string)
  {
    && InvocationKinds(k, name) && HousekeepingKinds(k, name) && OperationKinds(k, name) && ExternalKinds(k, name)
    && ImmediateKinds(k, name) && OutcomeKinds(k, name)
    && (k.InvokeLocalActivityKind? <==> name == "InvokeLocalActivity")
  }

  lemma AllStandFor(k: Kind, name: string)
    requires StandsFor(k, name)
    ensures AllKinds(k, name)
  {
    InvocationStandFor(k, name);
    HousekeepingStandFor(k, name);
    OperationStandFor(k, name);
    ExternalStandFor(k, name);
    ImmediateStandFor(k, name);
    OutcomeStandFor(k, name);
    assert CommandName(InvokeLocalActivityKind) == Some("InvokeLocalActivity");
  }

  lemma InvocationSent(c: Command, name: string)
    requires InvocationKinds(KindOf(c), name)
    ensures InvocationWire(c, name)
  {
  }

  lemma HousekeepingSent(c: Command, name: string)
    requires HousekeepingKinds(KindOf(c), name)
    ensures HousekeepingWire(c, name)
  {
  }

  lemma OperationSent(c: Command, name: string)
    requires OperationKinds(KindOf(c), name)
    ensures OperationWire(c, name)
  {
  }

  lemma ExternalSent(c: Command, name: string)
    requires ExternalKinds(KindOf(c), name)
    ensures ExternalWire(c, name)
  {
  }

  lemma ImmediateSent(c: Command, name: string)
    requires ImmediateKinds(KindOf(c), name)
    ensures ImmediateWire(c, name)
  {
  }

  lemma OutcomeSent(c: Command, name: string)
    requires OutcomeKinds(KindOf(c), name)
    ensures OutcomeWire(c, name)
  {
  }

  /** The name of each command on the wire, read both ways. InvokeLocalActivity has one too; UndefinedResponse has
      none. */
  predicate SentAs(c: Command, name: string)
  {
    && InvocationWire(c, name) && HousekeepingWire(c, name) && OperationWire(c, name) && ExternalWire(c, name)
    && ImmediateWire(c, name) && OutcomeWire(c, name)
    && (c.InvokeLocalActivity? <==> name == "InvokeLocalActivity") && !c.UndefinedResponse?
  }

  /** A packed command is on the wire under its own name, with its own options, and with the history length and run
      id of the context; a message without a command is there without a name. */
  lemma PackedUnderItsName(f: Formats, ctx: Context, m: Message)
    requires Pack(f, ctx, m).Some?
    ensures var w := Pack(f, ctx, m).value;
            && w.historyLength == ctx.historyLength && w.runId == ctx.rrId
            && (if m.command.None? then w.command == "" && w.options == ""
                else SentAs(m.command.value, w.command) && Some(w.options) == f.marshalOptions(m.command.value))
  {
    if m.command.Some? {
      var (c, name) := (m.command.value, Pack(f, ctx, m).value.command);
      SentStandsFor(KindOf(c), name);
      AllStandFor(KindOf(c), name);
      AllSent(c, name);
    }
  }

  lemma AllSent(c: Command, name: string)
    requires AllKinds(KindOf(c), name) && !c.UndefinedResponse?
    ensures SentAs(c, name)
  {
    InvocationSent(c, name);
    HousekeepingSent(c, name);
    OperationSent(c, name);
    ExternalSent(c, name);
    ImmediateSent(c, name);
    OutcomeSent(c, name);
  }

  /** The kind of command each name stands for on receipt. */
  predicate ReceivedAs(k: Kind, name: string)
  {
    AllKinds(k, name) && (k.UndefinedResponseKind? <==> name == "UndefinedResponse") && !k.InvokeLocalActivityKind?
  }

  lemma UndefinedReceived(name: string)
    requires InitCommand(name).Some?
    ensures InitCommand(name) == Some(UndefinedResponseKind) <==> name == "UndefinedResponse"
    ensures InitCommand(name) != Some(InvokeLocalActivityKind)
  {
  }

  /** A wire message with a name is parsed by unmarshalling its options as the kind of command that name stands
      for; one without a name has no command. Everything else is passed on as it is. */
  lemma ParsedAsItsName(f: Formats, w: Wire)
    requires Parse(f, w).Some?
    ensures var m := Parse(f, w).value;
            && m.id == w.id && m.failure == w.failure && m.payloads == w.payloads && m.header == w.header
            && (if w.command == "" then m.command.None?
                else InitCommand(w.command).Some?
                     && ReceivedAs(InitCommand(w.command).value, w.command)
                     && f.unmarshalOptions(InitCommand(w.command).value, w.options) == Some(m.command))
  {
    if w.command != "" {
      ReceivedStandsFor(w.command);
      AllStandFor(InitCommand(w.command).value, w.command);
      UndefinedReceived(w.command);
    }
  }

  // ---------------------------------------------------------------------------------------------
  // Batches
  // ---------------------------------------------------------------------------------------------

  function PackAll(f: Formats, ctx: Context, ms: seq<Message>): (r: Option<seq<Wire>>)
    ensures r.Some? ==> |r.value| == |ms|
  {
    if ms == [] then Some([])
    else
      var init := PackAll(f, ctx, ms[..|ms| - 1]);
      var last := Pack(f, ctx, ms[|ms| - 1]);
      if init.None? || last.None? then None else Some(init.value + [last.value])
  }

  /** The messages parsed before the first one that fails, and whether all of them parsed. */
  function ParseAll(f: Formats, ws: seq<Wire>): (seq<Message>, bool)
  {
    if ws == [] then ([], true)
    else
      var (init, ok) := ParseAll(f, ws[..|ws| - 1]);
      var last := Parse(f, ws[|ws| - 1]);
      if !ok then (init, false) else if last.None? then (init, false) else (init + [last.value], true)
  }

  /** The body `Encode` produces for a non-empty batch. */
  function Encoded(f: Formats, ctx: Context, ms: seq<Message>): Option<Bytes>
  {
    match PackAll(f, ctx, ms)
    case None => None
    case Some(ws) => if f.marshalContext(ctx).None? then None else f.marshalFrame(ws)
  }

  /** What `Decode` appends to its result, and whether it succeeds. An empty body is a silent worker. */
  function Decoded(f: Formats, body: Bytes): (seq<Message>, bool)
  {
    if body == [] then ([], true)
    else
      match f.unmarshalFrame(body)
      case None => ([], false)
      case Some(ws) => ParseAll(f, ws)
  }

  predicate AllKnown(ms: seq<Message>) { forall i :: 0 <= i < |ms| ==> Known(ms[i]) }

  lemma {:induction false} BatchRoundTrip(f: Formats, ctx: Context, ms: seq<Message>)
    requires Inverts(f) && forall i :: 0 <= i < |ms| ==> Marshals(f, ms[i])
    ensures AllKnown(ms) ==> PackAll(f, ctx, ms).Some?
    ensures PackAll(f, ctx, ms).Some? ==>
              var (parsed, ok) := ParseAll(f, PackAll(f, ctx, ms).value);
              (ok <==> AllKnown(ms)) && (ok ==> parsed == ms) && parsed <= ms
  {
    if ms != [] {
      var k := |ms| - 1;
      BatchRoundTrip(f, ctx, ms[..k]);
      MessageRoundTrip(f, ctx, ms[k]);
      assert ms == ms[..k] + [ms[k]];
      if PackAll(f, ctx, ms).Some? {
        var ws := PackAll(f, ctx, ms).value;
        assert ws[..k] == PackAll(f, ctx, ms[..k]).value;
      }
    }
  }

  /** Decoding an encoded batch gives the batch back, in order, exactly when both name tables know every
      command in it. If one of them does not, either nothing is encoded or the whole batch is refused. */
  lemma {:induction false} EncodeDecode(f: Formats, ctx: Context, ms: seq<Message>)
    requires Inverts(f) && f.marshalContext(ctx).Some? && ms != []
    requires forall i :: 0 <= i < |ms| ==> Marshals(f, ms[i])
    requires PackAll(f, ctx, ms).Some? ==> f.marshalFrame(PackAll(f, ctx, ms).value).Some?
    ensures AllKnown(ms) <==> Encoded(f, ctx, ms).Some? && Decoded(f, Encoded(f, ctx, ms).value) == (ms, true)
    ensures Encoded(f, ctx, ms).Some? && !AllKnown(ms) ==> !Decoded(f, Encoded(f, ctx, ms).value).1
  {
    BatchRoundTrip(f, ctx, ms);
  }

  /** A message can be packed: it has a name to be sent under, and its options can be marshalled. */
  predicate Packs(f: Formats, m: Message)
  {
    m.command.Some? ==> !m.command.value.UndefinedResponse? && f.marshalOptions(m.command.value).Some?
  }

  lemma PackSucceeds(f: Formats, ctx: Context, m: Message)
    ensures Pack(f, ctx, m).Some? <==> Packs(f, m)
  {
  }

  lemma {:induction false} PackAllSucceeds(f: Formats, ctx: Context, ms: seq<Message>)
    ensures PackAll(f, ctx, ms).Some? <==> forall i :: 0 <= i < |ms| ==> Packs(f, ms[i])
  {
    if ms != [] {
      var k := |ms| - 1;
      PackAllSucceeds(f, ctx, ms[..k]);
      PackSucceeds(f, ctx, ms[k]);
      assert ms == ms[..k] + [ms[k]];
    }
  }

  /** When a batch can be sent at all: every message packs, and the libraries marshal context and frame. */
  predicate Sendable(f: Formats, ctx: Context, ms: seq<Message>)
  {
    && (forall i :: 0 <= i < |ms| ==> Packs(f, ms[i]))
    && f.marshalContext(ctx).Some?
    && (PackAll(f, ctx, ms).Some? ==> f.marshalFrame(PackAll(f, ctx, ms).value).Some?)
  }

  /** What was encoded is what the other side decodes, if it knows the commands. */
  lemma SentIsReceived(f: Formats, ctx: Context, ms: seq<Message>)
    requires ms != []
    ensures Encoded(f, ctx, ms).Some? <==> Sendable(f, ctx, ms)
    ensures Inverts(f) && AllKnown(ms) && Sendable(f, ctx, ms) ==> Decoded(f, Encoded(f, ctx, ms).value) == (ms, true)
  {
    PackAllSucceeds(f, ctx, ms);
    if Inverts(f) && AllKnown(ms) && Sendable(f, ctx, ms) {
      EncodeDecode(f, ctx, ms);
    }
  }

  /** A body that can be read: an empty one, or a frame all of whose messages parse. */
  predicate Readable(f: Formats, body: Bytes)
  {
    body == [] || (f.unmarshalFrame(body).Some?
                   && forall i :: 0 <= i < |f.unmarshalFrame(body).value| ==>
                        Parse(f, f.unmarshalFrame(body).value[i]).Some?)
  }

  /** `ms` is what parsing the frame in a body gives, message by message. */
  predicate Reads(f: Formats, body: Bytes, ms: seq<Message>)
  {
    if body == [] then ms == []
    else
      var ws := f.unmarshalFrame(body);
      ws.Some? && |ms| == |ws.value| && forall i :: 0 <= i < |ms| ==> Parse(f, ws.value[i]) == Some(ms[i])
  }

  lemma {:induction false} ParseAllReads(f: Formats, ws: seq<Wire>)
    ensures var (ms, ok) := ParseAll(f, ws);
            && (ok <==> forall i :: 0 <= i < |ws| ==> Parse(f, ws[i]).Some?)
            && (ok ==> |ms| == |ws| && forall i :: 0 <= i < |ms| ==> Parse(f, ws[i]) == Some(ms[i]))
  {
    if ws != [] {
      var k := |ws| - 1;
      ParseAllReads(f, ws[..k]);
      assert ws == ws[..k] + [ws[k]];
    }
  }

  /** Decoding succeeds exactly on readable bodies, and then reads all of the frame, in order. */
  lemma DecodedReads(f: Formats, body: Bytes)
    ensures Decoded(f, body).1 <==> Readable(f, body)
    ensures Decoded(f, body).1 ==> Reads(f, body, Decoded(f, body).0)
  {
    if body != [] && f.unmarshalFrame(body).Some? {
      ParseAllReads(f, f.unmarshalFrame(body).value);
    }
  }

  // ---------------------------------------------------------------------------------------------
  // The loops
  // ---------------------------------------------------------------------------------------------

  /** A payload of the worker pool. */
  class Payload {
    var codec: int
    var context: Bytes
    var body: Bytes

    constructor ()
      ensures Blank()
    {
      codec, context, body := 0, "", "";
    }

    ghost predicate Blank()
      reads this
    {
      codec == 0 && context == "" && body == ""
    }
  }

  /** `Encode`. Whatever fails, the body of the payload is the old one or nothing; an empty batch writes
      nothing at all. */
  method Encode(f: Formats, ctx: Context, p: Payload, ms: seq<Message>) returns (ok: bool)
    modifies p
    ensures ms == [] ==> ok && unchanged(p)
    ensures ms != [] ==> ok == Encoded(f, ctx, ms).Some?
    ensures ms != [] && ok ==> p.body == Encoded(f, ctx, ms).value && Some(p.context) == f.marshalContext(ctx)
    ensures !ok ==> p.body == old(p.body) || p.body == ""
    ensures p.codec == old(p.codec)
  {
    if ms == [] {
      return true;
    }
    var frame: seq<Wire> := [];
    for i := 0 to |ms|
      invariant PackAll(f, ctx, ms[..i]) == Some(frame)
    {
      assert ms[..i + 1][..i] == ms[..i];
      var w := Pack(f, ctx, ms[i]);
      if w.None? {
        PackFails(f, ctx, ms, i);
        return false;
      }
      frame := frame + [w.value];
    }
    assert ms[..|ms|] == ms;
    var context := f.marshalContext(ctx);
    p.context := if context.Some? then context.value else "";
    if context.None? {
      return false;
    }
    var body := f.marshalFrame(frame);
    p.body := if body.Some? then body.value else "";
    return body.Some?;
  }

  lemma {:induction false} PackFails(f: Formats, ctx: Context, ms: seq<Message>, i: nat)
    requires i < |ms| && Pack(f, ctx, ms[i]).None?
    ensures PackAll(f, ctx, ms).None?
  {
    if i < |ms| - 1 {
      PackFails(f, ctx, ms[..|ms| - 1], i);
    }
  }

  lemma {:induction false} ParseFails(f: Formats, ws: seq<Wire>, i: nat)
    requires i < |ws| && Parse(f, ws[i]).None? && ParseAll(f, ws[..i]).1
    ensures ParseAll(f, ws) == (ParseAll(f, ws[..i]).0, false)
  {
    if i < |ws| - 1 {
      assert ws[..|ws| - 1][..i] == ws[..i];
      ParseFails(f, ws[..|ws| - 1], i);
    }
  }

  /** `Decode`. It appends as it parses, so a failure part-way leaves the messages before it in the result. */
  method Decode(f: Formats, body: Bytes) returns (out: seq<Message>, ok: bool)
    ensures (out, ok) == Decoded(f, body)
  {
    out := [];
    if body == [] {
      return out, true;
    }
    var frame := f.unmarshalFrame(body);
    if frame.None? {
      return out, false;
    }
    var ws := frame.value;
    for i := 0 to |ws|
      invariant ParseAll(f, ws[..i]) == (out, true)
    {
      var m := Parse(f, ws[i]);
      if m.None? {
        ParseFails(f, ws, i);
        return out, false;
      }
      assert ws[..i + 1][..i] == ws[..i];
      out := out + [m.value];
    }
    assert ws[..|ws|] == ws;
    return out, true;
  }
}
