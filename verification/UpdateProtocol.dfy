/** Workflow updates: each is rejected, or accepted and completed, exactly once. */
module UpdateProtocol {
  import opened Protocol
  import opened WorkflowModel
  import opened Requests

  // ---------------------------------------------------------------------------------------------
  // The trace of one update
  // ---------------------------------------------------------------------------------------------

  function CallsFor(calls: seq<UpdateCall>, k: nat): seq<UpdateCall>
  {
    if calls == [] then []
    else
      var c := calls[|calls| - 1];
      CallsFor(calls[..|calls| - 1], k) + (if c.serial == k then [c] else [])
  }

  /** Validated, and rejected for the reason the worker gave or because it gave none. */
  function Refusal(k: nat, why: Result): seq<UpdateCall> { [Validating(k), Rejecting(k, why)] }

  /** Accepted, executed and completed with the worker's result, in this order. */
  function Performance(k: nat, result: Result): seq<UpdateCall>
  {
    [Accepting(k), Executing(k), Completing(k, result)]
  }

  predicate IsRefusal(t: seq<UpdateCall>, k: nat)
  {
    |t| == 2 && t[1].Rejecting? && !t[1].result.Value? && t == Refusal(k, t[1].result)
  }

  predicate IsPerformance(t: seq<UpdateCall>, k: nat)
  {
    |t| == 3 && t[2].Completing? && t == Performance(k, t[2].result)
  }

  /** The traces an update may leave. Only live updates are validated, and only they can be refused. */
  predicate Legal(t: seq<UpdateCall>, k: nat, replaying: bool)
  {
    if replaying then IsPerformance(t, k)
    else IsRefusal(t, k) || (t != [] && t[0] == Validating(k) && IsPerformance(t[1..], k))
  }

  predicate Handled(t: seq<UpdateCall>, k: nat) { Legal(t, k, true) || Legal(t, k, false) }

  /** What the worker makes of the update in one phase. */
  function Verdict(s: State, u: Update, phase: string): (State, Result)
  {
    var (s1, r) := RunCommand(s, Invocation(s, u, phase), u.input, u.header);
    (s1, ResultOf(r))
  }

  /** The trace of an update, given what the worker makes of it. */
  function Trace(s: State, u: Update): seq<UpdateCall>
  {
    if s.world.ctx.replay then Performance(u.serial, Verdict(s, u, "execute").1)
    else
      var (s1, valid) := Verdict(s, u, "validate");
      if !valid.Value? then Refusal(u.serial, valid)
      else [Validating(u.serial)] + Performance(u.serial, Verdict(s1, u, "execute").1)
  }

  lemma PerformTrace(s: State, u: Update)
    ensures Perform(s, u).updates.calls == s.updates.calls + Performance(u.serial, Verdict(s, u, "execute").1)
  {
  }

  lemma NotedVerdict(s: State, c: UpdateCall, u: Update, phase: string)
    ensures Verdict(Note(s, c), u, phase).1 == Verdict(s, u, phase).1
    ensures Verdict(Note(s, c), u, phase).0 == Note(Verdict(s, u, phase).0, c)
  {
  }

  lemma RefusedTrace(s: State, u: Update)
    requires !s.world.ctx.replay && !Verdict(s, u, "validate").1.Value?
    ensures RunUpdate(s, u).updates.calls == s.updates.calls + Trace(s, u)
  {
    NotedVerdict(s, Validating(u.serial), u, "validate");
  }

  lemma AcceptedTrace(s: State, u: Update)
    requires !s.world.ctx.replay && Verdict(s, u, "validate").1.Value?
    ensures RunUpdate(s, u).updates.calls == s.updates.calls + Trace(s, u)
  {
    var c := Validating(u.serial);
    var s1 := Verdict(s, u, "validate").0;
    NotedVerdict(s, c, u, "validate");
    NotedVerdict(s1, c, u, "execute");
    assert RunUpdate(s, u) == Perform(Note(s1, c), u);
    PerformTrace(Note(s1, c), u);
  }

  lemma TraceIsLegal(s: State, u: Update)
    ensures Legal(Trace(s, u), u.serial, s.world.ctx.replay)
  {
    var t := Trace(s, u);
    if |t| == 4 {
      assert t[1..] == Performance(u.serial, t[3].result);
    }
  }

  /** Whatever the worker replies, an update leaves one legal trace, and the worker's verdicts decide which:
      it is rejected exactly when it is validated and the verdict is not a value, and completed with what its
      execution returned. */
  lemma UpdateTrace(s: State, u: Update)
    ensures RunUpdate(s, u).updates.calls == s.updates.calls + Trace(s, u)
    ensures Legal(Trace(s, u), u.serial, s.world.ctx.replay)
  {
    TraceIsLegal(s, u);
    if s.world.ctx.replay {
      PerformTrace(s, u);
    } else if Verdict(s, u, "validate").1.Value? {
      AcceptedTrace(s, u);
    } else {
      RefusedTrace(s, u);
    }
  }

  /** The message an update is invoked with in one of its phases. */
  function InvokeMessage(s: State, u: Update, phase: string): Message
  {
    Message(Next(s.counter), Some(InvokeUpdate(u.id, s.run.runId, u.name, phase)), None, u.input, u.header)
  }

  lemma VerdictReports(s: State, u: Update, phase: string)
    ensures Reports(s, InvokeMessage(s, u, phase), Verdict(s, u, phase).1)
    ensures Verdict(s, u, phase).0.asked == s.asked + Sends(s, InvokeMessage(s, u, phase))
  {
    CommandReports(s, InvokeUpdate(u.id, s.run.runId, u.name, phase), u.input, u.header);
  }

  /** What the worker says decides what happens to an update. A validator's failure, or no readable reply of one
      message, rejects it with that reason; else it is accepted and completes with what its execution returned. */
  lemma UpdateFollowsWorker(s: State, u: Update)
    ensures var k := u.serial;
            var (calls, after) := (s.updates.calls, RunUpdate(s, u).updates.calls);
            var (s1, valid) := Verdict(s, u, "validate");
            && Reports(s, InvokeMessage(s, u, "validate"), valid)
            && Reports(s1, InvokeMessage(s1, u, "execute"), Verdict(s1, u, "execute").1)
            && Reports(s, InvokeMessage(s, u, "execute"), Verdict(s, u, "execute").1)
            && if s.world.ctx.replay then
                 after == calls + [Accepting(k), Executing(k), Completing(k, Verdict(s, u, "execute").1)]
               else if valid.Value? then
                 after == calls
                   + [Validating(k), Accepting(k), Executing(k), Completing(k, Verdict(s1, u, "execute").1)]
               else after == calls + [Validating(k), Rejecting(k, valid)]
  {
    VerdictReports(s, u, "validate");
    VerdictReports(s, u, "execute");
    VerdictReports(Verdict(s, u, "validate").0, u, "execute");
    UpdateTrace(s, u);
  }

  /** A live update whose validator returns a failure is rejected with it, and nothing is executed. */
  lemma ValidatorRefuses(s: State, u: Update, m: Message, e: string)
    requires !s.world.ctx.replay && Yields(s, InvokeMessage(s, u, "validate"), m) && m.failure == Some(e)
    ensures RunUpdate(s, u).updates.calls
         == s.updates.calls + [Validating(u.serial), Rejecting(u.serial, Failure(e))]
    ensures RunUpdate(s, u).asked == s.asked + [InvokeMessage(s, u, "validate")]
  {
    UpdateFollowsWorker(s, u);
    VerdictReports(s, u, "validate");
    ReportsOnce(s, InvokeMessage(s, u, "validate"), Verdict(s, u, "validate").1, Failure(e));
    NotedVerdict(s, Validating(u.serial), u, "validate");
  }

  /** An update that has arrived is invoked, when its name is handled, under its own id and with its own input
      and header. */
  lemma UpdateIsInvoked(s: State, name: string, id: string, input: Payloads, header: Header)
    requires s.world.ctx.replay && s.updates.parked == []
    ensures var command := InvokeUpdate(id, s.run.runId, name, "execute");
            var out := Message(Next(s.counter), Some(command), None, input, header);
            HandleQueued(QueueUpdate(s, name, id, input, header), name).asked == s.asked + Sends(s, out)
  {
    var u := Update(s.updates.received, name, id, input, header);
    var t := QueueUpdate(s, name, id, input, header);
    assert t.updates.parked == [u];
    var us := [u];
    assert us[1..] == [] && Named(us[1..], name) == [] && Others(us[1..], name) == [];
    assert Named(us, name) == us && Others(us, name) == [];
    var t1 := t.(updates := t.updates.(parked := []));
    assert RunUpdates(t1, us) == RunUpdates(RunUpdate(t1, u), us[1..]) == RunUpdate(t1, u);
    PerformAsks(t1, u);
  }

  lemma PerformAsks(s: State, u: Update)
    ensures Perform(s, u).asked == s.asked + Sends(s, InvokeMessage(s, u, "execute"))
  {
    var s0 := Note(Note(s, Accepting(u.serial)), Executing(u.serial));
    CommandReports(s0, InvokeUpdate(u.id, s.run.runId, u.name, "execute"), u.input, u.header);
  }

  /** What a legal trace means: the callbacks seen by the caller are exactly Reject, or Accept and then
      Complete; execution is attempted exactly when the update is accepted; a replay never refuses. */
  lemma LegalTraces(t: seq<UpdateCall>, k: nat, replaying: bool)
    requires Legal(t, k, replaying)
    ensures forall i :: 0 <= i < |t| ==> t[i].serial == k
    ensures Accepting(k) in t <==> Executing(k) in t
    ensures Accepting(k) in t <==> forall why :: Rejecting(k, why) !in t
    ensures Accepting(k) in t <==> t[|t| - 1].Completing?
    ensures replaying ==> Validating(k) !in t && forall why :: Rejecting(k, why) !in t
  {
  }

  lemma {:induction false} CallsForAppend(calls: seq<UpdateCall>, t: seq<UpdateCall>, k: nat, serial: nat)
    requires forall i :: 0 <= i < |t| ==> t[i].serial == serial
    ensures CallsFor(calls + t, k) == CallsFor(calls, k) + (if k == serial then t else [])
    decreases |t|
  {
    if t == [] {
      assert calls + t == calls;
    } else {
      var n := |t| - 1;
      CallsForAppend(calls, t[..n], k, serial);
      assert (calls + t)[..|calls + t| - 1] == calls + t[..n];
    }
  }

  // ---------------------------------------------------------------------------------------------
  // Exactly once
  // ---------------------------------------------------------------------------------------------

  function Count(us: seq<Update>, k: nat): nat
  {
    if us == [] then 0 else (if us[0].serial == k then 1 else 0) + Count(us[1..], k)
  }

  /** The state of update `k`: parked or about to run, with an empty trace; handled; or not received. */
  predicate Entry(up: Updates, todo: seq<Update>, k: nat)
  {
    var n := Count(up.parked, k) + Count(todo, k);
    var t := CallsFor(up.calls, k);
    if k >= up.received then n == 0 && t == []
    else (n == 1 && t == []) || (n == 0 && Handled(t, k))
  }

  ghost predicate Ledger(up: Updates, todo: seq<Update>)
  {
    forall k :: Entry(up, todo, k)
  }

  /** Every parked update is queued under a name the next task will ask for. */
  predicate Covered(up: Updates, names: seq<string>)
  {
    forall u :: u in up.parked ==> u.name in names
  }

  /** What a trace of `u` does to the entry of `k`. */
  lemma TraceAdded(up: Updates, u: Update, rest: seq<Update>, t: seq<UpdateCall>, k: nat)
    requires Entry(up, [u] + rest, k) && forall i :: 0 <= i < |t| ==> t[i].serial == u.serial
    ensures k != u.serial ==> Entry(up.(calls := up.calls + t), rest, k)
    ensures k == u.serial ==>
              k < up.received && Count(up.parked, k) + Count(rest, k) == 0 && CallsFor(up.calls + t, k) == t
  {
    CallsForAppend(up.calls, t, k, u.serial);
    CountCons(u, rest, k);
  }

  lemma EntryAfter(up: Updates, u: Update, rest: seq<Update>, t: seq<UpdateCall>, replaying: bool, k: nat)
    requires Entry(up, [u] + rest, k) && Legal(t, u.serial, replaying)
    ensures Entry(up.(calls := up.calls + t), rest, k)
  {
    LegalTraces(t, u.serial, replaying);
    TraceAdded(up, u, rest, t, k);
  }

  lemma CountCons(u: Update, rest: seq<Update>, k: nat)
    ensures Count([u] + rest, k) == (if u.serial == k then 1 else 0) + Count(rest, k)
  {
  }

  lemma RunUpdateKept(s: State, u: Update, rest: seq<Update>)
    requires Ledger(s.updates, [u] + rest)
    ensures Ledger(RunUpdate(s, u).updates, rest)
  {
    UpdateTrace(s, u);
    forall k ensures Entry(RunUpdate(s, u).updates, rest, k) {
      EntryAfter(s.updates, u, rest, Trace(s, u), s.world.ctx.replay, k);
    }
  }

  lemma {:induction false} RunUpdatesKept(s: State, us: seq<Update>)
    requires Ledger(s.updates, us)
    ensures Ledger(RunUpdates(s, us).updates, [])
    decreases |us|
  {
    if us != [] {
      assert us == [us[0]] + us[1..];
      RunUpdateKept(s, us[0], us[1..]);
      RunUpdatesKept(RunUpdate(s, us[0]), us[1..]);
    }
  }

  lemma {:induction false} NamedAndOthers(us: seq<Update>, name: string, k: nat)
    ensures Count(Named(us, name), k) + Count(Others(us, name), k) == Count(us, k)
  {
    if us != [] {
      NamedAndOthers(us[1..], name, k);
      var ns, os := Named(us[1..], name), Others(us[1..], name);
      if us[0].name == name {
        assert Named(us, name)[1..] == ns && Others(us, name) == os;
      } else {
        assert Others(us, name)[1..] == os && Named(us, name) == ns;
      }
    }
  }

  lemma {:induction false} OthersCovered(us: seq<Update>, name: string, names: seq<string>)
    requires forall u :: u in us ==> u.name in [name] + names
    ensures forall u :: u in Others(us, name) ==> u.name in names
  {
    if us != [] {
      assert us[0] in us;
      OthersCovered(us[1..], name, names);
    }
  }

  lemma HandleQueuedKept(s: State, name: string, names: seq<string>)
    requires Ledger(s.updates, []) && Covered(s.updates, [name] + names)
    ensures Ledger(HandleQueued(s, name).updates, []) && Covered(HandleQueued(s, name).updates, names)
  {
    var parked := s.updates.parked;
    var s1 := s.(updates := s.updates.(parked := Others(parked, name)));
    OthersCovered(parked, name, names);
    forall k ensures Entry(s1.updates, Named(parked, name), k) {
      NamedAndOthers(parked, name, k);
      assert Entry(s.updates, [], k);
    }
    RunUpdatesKept(s1, Named(parked, name));
  }

  lemma HeadIsMember(us: seq<Update>)
    ensures us != [] ==> us[0] in us
  {
  }

  lemma {:induction false} HandleEachClears(s: State, names: seq<string>)
    requires Ledger(s.updates, []) && Covered(s.updates, names)
    ensures Ledger(HandleEach(s, names).updates, []) && HandleEach(s, names).updates.parked == []
    decreases |names|
  {
    if names != [] {
      assert names == [names[0]] + names[1..];
      HandleQueuedKept(s, names[0], names[1..]);
      HandleEachClears(HandleQueued(s, names[0]), names[1..]);
    } else {
      HeadIsMember(s.updates.parked);
    }
  }

  ghost predicate UpdatesSound(s: State) { Ledger(s.updates, []) && Covered(s.updates, s.updates.names) }

  /** A task either fails its first flush and leaves the updates alone, or handles every one of them, even
      if it panics later. Names queued twice do no harm. */
  lemma TaskHandlesUpdates(s: State)
    requires UpdatesSound(s)
    ensures UpdatesSound(Task(s).0)
    ensures FirstFlush(s).1 == Continue ==> Task(s).0.updates.parked == []
    ensures FirstFlush(s).1 != Continue ==> Task(s).0.updates == s.updates
    ensures Task(s).1 == Continue ==> Task(s).0.updates.parked == []
    ensures Task(s).0.updates.received == s.updates.received
  {
    var s1 := FirstFlush(s).0;
    assert s1.updates == s.updates;
    HandleEachClears(s1, s1.updates.names);
    var s2 := HandleUpdates(s1);
    assert Ledger(s2.updates, []) by {
      forall k ensures Entry(s2.updates, [], k) {
        assert Entry(HandleEach(s1, s1.updates.names).updates, [], k);
      }
    }
  }

  /** Close drains whatever is still parked. */
  lemma CloseHandlesUpdates(s: State)
    requires UpdatesSound(s)
    ensures UpdatesSound(Close(s)) && Close(s).updates.parked == []
  {
    var s1 := s.(updates := s.updates.(parked := []));
    forall k ensures Entry(s1.updates, s.updates.parked, k) {
      assert Entry(s.updates, [], k);
    }
    RunUpdatesKept(s1, s.updates.parked);
    assert Close(s).updates == RunUpdates(s1, s.updates.parked).updates;
  }

  lemma {:induction false} CountSnoc(us: seq<Update>, u: Update, k: nat)
    ensures Count(us + [u], k) == Count(us, k) + (if u.serial == k then 1 else 0)
  {
    if us != [] {
      assert (us + [u])[1..] == us[1..] + [u];
      CountSnoc(us[1..], u, k);
    }
  }

  lemma QueueKept(s: State, name: string, id: string, input: Payloads, header: Header)
    requires UpdatesSound(s)
    ensures UpdatesSound(QueueUpdate(s, name, id, input, header))
  {
    var up := s.updates;
    var r := QueueUpdate(s, name, id, input, header).updates;
    forall k ensures Entry(r, [], k) {
      assert Entry(up, [], k);
      CountSnoc(up.parked, Update(up.received, name, id, input, header), k);
    }
  }

  lemma OthersKeepUpdates(s: State, e: Event)
    requires !e.UpdateReceived? && !e.TaskStarted? && !e.Closed?
    ensures Step(s, e).updates == s.updates
  {
  }

  lemma StepUpdates(s: State, e: Event)
    requires UpdatesSound(s)
    ensures UpdatesSound(Step(s, e))
  {
    match e
    case UpdateReceived(name, id, payloads, header) => QueueKept(s, name, id, payloads, header);
    case TaskStarted(answers, replies, ctx) => TaskHandlesUpdates(WithOracles(s, answers, replies, ctx));
    case Closed(replies, ctx) => CloseHandlesUpdates(WithOracles(s, [], replies, ctx));
    case _ => OthersKeepUpdates(s, e);
  }

  /** In every run each update received so far is either still parked, once and untouched, or it has been
      handled, once and with a legal trace. */
  lemma {:induction false} UpdatesExactlyOnce(l: Launch, es: seq<Event>)
    ensures UpdatesSound(After(l, es))
    decreases |es|
  {
    var s := Execute(l);
    if es == [] {
      forall k ensures Entry(s.updates, [], k) {
      }
    } else {
      UpdatesExactlyOnce(l, es[..|es| - 1]);
      StepUpdates(Run(s, es[..|es| - 1]), es[|es| - 1]);
    }
  }

  /** After a task that returns normally, every update received before it has been handled exactly once. */
  lemma TaskLeavesNoUpdate(s: State, k: nat)
    requires UpdatesSound(s) && k < s.updates.received
    ensures Task(s).1 == Continue ==> Handled(CallsFor(Task(s).0.updates.calls, k), k)
  {
    TaskHandlesUpdates(s);
    var r := Task(s).0.updates;
    assert Entry(r, [], k);
  }
}
