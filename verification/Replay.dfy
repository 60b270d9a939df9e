/** What is a function of the messages taken: the commands owed an answer and the generated child ids. */
module Replay {
  import opened Protocol
  import opened WorkflowModel

  /** The messages the task loop has taken, in order, without those a panic dropped. */
  function TakenMessages(fates: seq<Fate>): seq<Message>
  {
    if fates == [] then []
    else
      var x := fates[|fates| - 1];
      TakenMessages(fates[..|fates| - 1]) + (if x.Taken? then [x.msg] else [])
  }

  lemma TakenSnoc(fates: seq<Fate>, x: Fate)
    ensures TakenMessages(fates + [x]) == TakenMessages(fates) + (if x.Taken? then [x.msg] else [])
  {
  }

  lemma {:induction false} TakenDropped(fates: seq<Fate>, ms: seq<Message>)
    ensures TakenMessages(fates + AllDropped(ms)) == TakenMessages(fates)
  {
    if ms == [] {
      assert fates + AllDropped(ms) == fates;
    } else {
      var k := |ms| - 1;
      TakenDropped(fates, ms[..k]);
      assert fates + AllDropped(ms) == (fates + AllDropped(ms[..k])) + [Dropped(ms[k])];
      TakenSnoc(fates + AllDropped(ms[..k]), Dropped(ms[k]));
    }
  }

  /** What one turn of the loop has taken: the head of the pipeline, whatever else happened. */
  lemma TurnTakes(s: State)
    requires s.input.pipeline != []
    ensures TakenMessages(Turn(s).0.input.consumed) == TakenMessages(s.input.consumed) + [s.input.pipeline[0]]
  {
    var m := s.input.pipeline[0];
    var s1 := Take(s);
    TakenSnoc(s.input.consumed, Taken(m));
    if m.IsCommand() {
      TakenDropped(s1.input.consumed, s1.input.pipeline);
      TakenDropped(s1.input.consumed, Handle(s1, m).0.input.pipeline);
    }
  }

  // ---------------------------------------------------------------------------------------------
  // Generated child ids, and the end of the run
  // ---------------------------------------------------------------------------------------------

  predicate NeedsName(m: Message)
  {
    m.command.Some? && m.command.value.ExecuteChildWorkflow? && m.command.value.workflowId == ""
  }

  /** How many of the messages ask for a child workflow without naming it. */
  function Nameless(ms: seq<Message>): nat
  {
    if ms == [] then 0
    else Nameless(ms[..|ms| - 1]) + (if NeedsName(ms[|ms| - 1]) then 1 else 0)
  }

  lemma NamelessSnoc(ms: seq<Message>, m: Message)
    ensures Nameless(ms + [m]) == Nameless(ms) + (if NeedsName(m) then 1 else 0)
  {
  }

  /** The first `n` ids generated in a run. */
  function ChildNames(runId: string, n: nat): (names: seq<string>)
    ensures |names| == n
  {
    seq(n, i requires 0 <= i < n => ChildName(runId, (i + 1) % TWO_64))
  }

  predicate ChildrenFollow(s: State)
  {
    var n := Nameless(TakenMessages(s.input.consumed));
    s.children == Children(n % TWO_64, ChildNames(s.run.runId, n))
  }

  lemma NameNext(runId: string, n: nat)
    ensures ChildNames(runId, n + 1) == ChildNames(runId, n) + [ChildName(runId, (n + 1) % TWO_64)]
  {
  }

  lemma HandleChildren(s: State, m: Message)
    requires m.IsCommand()
    ensures Handle(s, m).0.children == (if NeedsName(m) then NameChild(s, "") else s).children
  {
  }

  lemma TurnChildren(s: State)
    requires s.input.pipeline != []
    ensures Turn(s).0.children == (if NeedsName(s.input.pipeline[0]) then NameChild(s, "") else s).children
  {
    if s.input.pipeline[0].IsCommand() {
      HandleChildren(Take(s), s.input.pipeline[0]);
    }
  }

  lemma NamesAfter(s: State, r: State, m: Message)
    requires ChildrenFollow(s) && r.run == s.run
    requires TakenMessages(r.input.consumed) == TakenMessages(s.input.consumed) + [m]
    requires r.children == (if NeedsName(m) then NameChild(s, "") else s).children
    ensures ChildrenFollow(r)
  {
    var ms := TakenMessages(s.input.consumed);
    NamelessSnoc(ms, m);
    NextAfter(Nameless(ms));
    NameNext(s.run.runId, Nameless(ms));
  }

  /** What a sequence of messages tells the environment about the end of the run. */
  function Ends(ms: seq<Message>): seq<RunEnd>
  {
    if ms == [] then [] else Ends(ms[..|ms| - 1]) + EndsOf(ms[|ms| - 1])
  }

  function EndsOf(m: Message): seq<RunEnd> { if EndOf(m).Some? then [EndOf(m).value] else [] }

  predicate EndsFollow(s: State) { s.log.endings == Ends(TakenMessages(s.input.consumed)) }

  lemma RestEnds(s: State, m: Message)
    requires m.IsCommand() && Starts(m.command.value).None?
    ensures HandleRest(s, m).0.log.endings == s.log.endings + EndsOf(m)
  {
  }

  lemma StartEnds(s: State, id: Id, role: Role)
    ensures StartOp(s, id, role).log.endings == s.log.endings
  {
  }

  lemma HandleEnds(s: State, m: Message)
    requires m.IsCommand()
    ensures Handle(s, m).0.log.endings == s.log.endings + EndsOf(m)
  {
    var c := m.command.value;
    if Starts(c).None? {
      RestEnds(s, m);
    } else if c.ExecuteChildWorkflow? {
      StartEnds(NameChild(s, c.workflowId), m.id, Child(ChildId(s, c.workflowId)));
    } else {
      StartEnds(s, m.id, Starts(c).value);
    }
  }

  lemma TurnEnds(s: State)
    requires s.input.pipeline != []
    ensures Turn(s).0.log.endings == s.log.endings + EndsOf(s.input.pipeline[0])
  {
    if s.input.pipeline[0].IsCommand() {
      HandleEnds(Take(s), s.input.pipeline[0]);
    }
  }

  lemma EndsSnoc(ms: seq<Message>, m: Message)
    ensures Ends(ms + [m]) == Ends(ms) + EndsOf(m)
  {
    assert (ms + [m])[..|ms|] == ms;
  }

  predicate Follows(s: State) { ChildrenFollow(s) && EndsFollow(s) }

  lemma TurnFollows(s: State)
    requires Follows(s) && s.input.pipeline != []
    ensures Follows(Turn(s).0)
  {
    TurnTakes(s);
    TurnChildren(s);
    NamesAfter(s, Turn(s).0, s.input.pipeline[0]);
    TurnEnds(s);
    EndsSnoc(TakenMessages(s.input.consumed), s.input.pipeline[0]);
  }

  lemma {:induction false} LoopFollows(s: State)
    requires Follows(s)
    ensures Follows(Loop(s).0)
    decreases Budget(s)
  {
    if s.input.pipeline != [] {
      TurnFollows(s);
      LoopFollows(Turn(s).0);
    }
  }

  lemma TaskFollows(s: State)
    requires Follows(s)
    ensures Follows(Task(s).0) && Task(s).0.run == s.run
  {
    var s1 := FirstFlush(s).0;
    assert Follows(s1);
    LoopFollows(HandleUpdates(s1));
  }

  lemma FollowsFrame(s: State, r: State)
    requires Follows(s) && r.run == s.run && r.children == s.children
    requires r.input == s.input && r.log.endings == s.log.endings
    ensures Follows(r)
  {
  }

  lemma OthersFollow(s: State, e: Event)
    requires !e.TaskStarted?
    ensures var r := Step(s, e);
            r.children == s.children && r.input == s.input && r.run == s.run && r.log.endings == s.log.endings
  {
  }

  lemma StepFollows(s: State, e: Event)
    requires Follows(s)
    ensures Follows(Step(s, e)) && Step(s, e).run == s.run
  {
    if e.TaskStarted? {
      var t := WithOracles(s, e.answers, e.replies, e.ctx);
      FollowsFrame(s, t);
      TaskFollows(t);
    } else {
      OthersFollow(s, e);
      FollowsFrame(s, Step(s, e));
    }
  }

  /** In every run the generated child ids, and what the environment is told about the end of the run, are
      functions of the run id and the messages taken. */
  lemma {:induction false} ChildNamesFollowMessages(l: Launch, es: seq<Event>)
    ensures var s := After(l, es);
            s.run == l.run && ChildrenFollow(s) && EndsFollow(s)
    decreases |es|
  {
    if es != [] {
      var k := |es| - 1;
      ChildNamesFollowMessages(l, es[..k]);
      StepFollows(After(l, es[..k]), es[k]);
    }
  }

  /** Replay stability: two executions of one run that took the same messages generated the same child ids, and
      ended the run in the same way, whatever the shared counter was and whatever else happened to them. */
  lemma ReplayStableChildNames(l: Launch, l': Launch, es: seq<Event>, es': seq<Event>)
    requires l.run.runId == l'.run.runId
    requires TakenMessages(After(l, es).input.consumed) == TakenMessages(After(l', es').input.consumed)
    ensures After(l, es).children == After(l', es').children
    ensures After(l, es).log.endings == After(l', es').log.endings
  {
    ChildNamesFollowMessages(l, es);
    ChildNamesFollowMessages(l', es');
  }

  // ---------------------------------------------------------------------------------------------
  // Distinct child ids
  // ---------------------------------------------------------------------------------------------

  function Reading(digits: string): int
  {
    if digits == [] then 0
    else Reading(digits[..|digits| - 1]) * 10 + (digits[|digits| - 1] as int - '0' as int)
  }

  lemma {:induction false} DecimalReadsBack(n: nat)
    ensures Reading(Decimal(n)) == n && Decimal(n) != [] && Decimal(n)[0] != '-'
  {
    if n < 10 {
      assert Decimal(n) == [Digit(n)];
      assert Decimal(n)[..0] == [];
    } else {
      DecimalReadsBack(n / 10);
      var init := Decimal(n / 10);
      assert Decimal(n)[..|init|] == init;
    }
  }

  lemma ItoaInjective(a: nat, b: nat)
    requires a < TWO_64 && b < TWO_64 && Itoa(a) == Itoa(b)
    ensures a == b
  {
    DecimalReadsBack(a);
    DecimalReadsBack(b);
    DecimalReadsBack(TWO_64 - a);
    DecimalReadsBack(TWO_64 - b);
    if a >= TWO_64 / 2 && b >= TWO_64 / 2 {
      assert Itoa(a)[1..] == Decimal(TWO_64 - a) && Itoa(b)[1..] == Decimal(TWO_64 - b);
    }
  }

  lemma ChildNameInjective(runId: string, a: nat, b: nat)
    requires a < TWO_64 && b < TWO_64 && ChildName(runId, a) == ChildName(runId, b)
    ensures a == b
  {
    var prefix := runId + "_";
    assert ChildName(runId, a)[|prefix|..] == Itoa(a);
    assert ChildName(runId, b)[|prefix|..] == Itoa(b);
    ItoaInjective(a, b);
  }

  /** A generated id is the run id, an underscore, and a numeral that reads back as the counter. */
  lemma ChildNameReads(runId: string, n: nat)
    requires n < TWO_64 / 2
    ensures var name := ChildName(runId, n);
            && |runId| < |name| && name[..|runId|] == runId && name[|runId|] == '_'
            && Reading(name[|runId| + 1..]) == n
  {
    DecimalReadsBack(n);
    var name := ChildName(runId, n);
    assert name[|runId| + 1..] == Decimal(n);
  }

  predicate Distinct(names: seq<string>)
  {
    forall i, j :: 0 <= i < j < |names| ==> names[i] != names[j]
  }

  lemma NamesDiffer(runId: string, i: nat, j: nat)
    requires i < j < TWO_64
    ensures ChildName(runId, (i + 1) % TWO_64) != ChildName(runId, (j + 1) % TWO_64)
  {
    if ChildName(runId, (i + 1) % TWO_64) == ChildName(runId, (j + 1) % TWO_64) {
      ChildNameInjective(runId, (i + 1) % TWO_64, (j + 1) % TWO_64);
    }
  }

  /** The ids generated in one run are pairwise distinct until the 64-bit child counter has gone round. */
  lemma ChildNamesDistinct(runId: string, n: nat)
    ensures Distinct(ChildNames(runId, n)) <==> n <= TWO_64
  {
    var names := ChildNames(runId, n);
    if n <= TWO_64 {
      forall i, j | 0 <= i < j < n ensures names[i] != names[j] {
        NamesDiffer(runId, i, j);
      }
    } else {
      assert names[0] == names[TWO_64];
    }
  }

  // ---------------------------------------------------------------------------------------------
  // Commands owed an answer
  // ---------------------------------------------------------------------------------------------

  /** What is on the books for a command: an operation of its kind, a listener for its child, or an answer given
      at once. The commands without a case are owed no answer. */
  predicate Fits(c: Command, role: Role)
  {
    match c
    case ExecuteActivity(_) => role.Activity?
    case ExecuteLocalActivity(_) => role.LocalActivity?
    case ExecuteChildWorkflow(_, workflowId) => role.Child? && (workflowId != "" ==> role.workflowId == workflowId)
    case NewTimer(_) => role.Timer?
    case SignalExternalWorkflow(_, _) => role.External?
    case CancelExternalWorkflow(_) => role.External?
    case GetChildWorkflowExecution(child) => role.Listener? && role.child == child
    case GetVersion(_, _, _) => role.Immediate?
    case SideEffect => role.Immediate?
    case CompleteWorkflow => role.Immediate?
    case ContinueAsNew(_) => role.Immediate?
    case Cancel(_) => role.Immediate?
    case _ => false
  }

  /** The commands that are owed an answer once they have been handled. */
  predicate Answerable(c: Command)
  {
    || c.ExecuteActivity? || c.ExecuteLocalActivity? || c.ExecuteChildWorkflow? || c.NewTimer?
    || c.SignalExternalWorkflow? || c.CancelExternalWorkflow? || c.GetChildWorkflowExecution?
    || c.GetVersion? || c.SideEffect? || c.CompleteWorkflow? || c.ContinueAsNew? || c.Cancel?
  }

  /** The commands owed an answer among the messages consumed: the answerable commands taken, in order, without
      the version requests whose version could not be converted. */
  function Owed(fates: seq<Fate>, unconverted: set<nat>): seq<Message>
  {
    if fates == [] then []
    else
      var x := fates[|fates| - 1];
      Owed(fates[..|fates| - 1], unconverted)
      + (if Owes(x) && |fates| !in unconverted then [x.msg] else [])
  }

  predicate Owes(x: Fate) { x.Taken? && x.msg.IsCommand() && Answerable(x.msg.command.value) }

  /** The entry on the books is the message's, under its id and with a role that fits its command. */
  predicate IsEntryOf(a: Accepted, m: Message)
  {
    a.id == m.id && m.command.Some? && Fits(m.command.value, a.role)
  }

  predicate Matches(acc: seq<Accepted>, ms: seq<Message>)
  {
    |acc| == |ms| && forall i :: 0 <= i < |acc| ==> IsEntryOf(acc[i], ms[i])
  }

  /** Positions that do not exist yet make no difference. */
  lemma {:induction false} OwedFrame(fates: seq<Fate>, a: set<nat>, b: set<nat>)
    requires forall k :: 1 <= k <= |fates| ==> (k in a <==> k in b)
    ensures Owed(fates, a) == Owed(fates, b)
  {
    if fates != [] {
      OwedFrame(fates[..|fates| - 1], a, b);
    }
  }

  lemma OwedSnoc(fates: seq<Fate>, x: Fate, unconverted: set<nat>)
    ensures Owed(fates + [x], unconverted)
         == Owed(fates, unconverted) + (if Owes(x) && |fates| + 1 !in unconverted then [x.msg] else [])
  {
  }

  lemma {:induction false} OwedDropped(fates: seq<Fate>, ms: seq<Message>, unconverted: set<nat>)
    ensures Owed(fates + AllDropped(ms), unconverted) == Owed(fates, unconverted)
  {
    if ms == [] {
      assert fates + AllDropped(ms) == fates;
    } else {
      var k := |ms| - 1;
      OwedDropped(fates, ms[..k], unconverted);
      assert fates + AllDropped(ms) == (fates + AllDropped(ms[..k])) + [Dropped(ms[k])];
      OwedSnoc(fates + AllDropped(ms[..k]), Dropped(ms[k]), unconverted);
    }
  }

  /** The version of this request, were it handled now, could not be converted. */
  predicate Inconvertible(s: State, m: Message)
  {
    m.command.Some? && m.command.value.GetVersion? && Answered(s).result.Fail?
  }

  /** `r` has admitted `m`, if `admits`, and recorded it as not converted, if `fails`. */
  ghost predicate Admits(s: State, r: State, m: Message, admits: bool, fails: bool)
  {
    var n := |s.log.accepted|;
    && (if admits
        then |r.log.accepted| == n + 1 && r.log.accepted[..n] == s.log.accepted && IsEntryOf(r.log.accepted[n], m)
        else r.log.accepted == s.log.accepted)
    && r.log.unconverted == s.log.unconverted + (if fails then {|s.input.consumed|} else {})
  }

  lemma OneAdmitted(s: State, r: State, m: Message, role: Role)
    requires r.log.accepted == s.log.accepted + [Accepted(m.id, role)] && r.log.unconverted == s.log.unconverted
    requires m.command.Some? && Fits(m.command.value, role)
    ensures Admits(s, r, m, true, false)
  {
  }

  lemma RestAdmits(s: State, m: Message)
    requires m.IsCommand() && Starts(m.command.value).None?
    ensures var fails := Inconvertible(s, m);
            Admits(s, HandleRest(s, m).0, m, Answerable(m.command.value) && !fails, fails)
  {
    var (r, c) := (HandleRest(s, m).0, m.command.value);
    if Answerable(c) && !Inconvertible(s, m) {
      OneAdmitted(s, r, m, if c.GetChildWorkflowExecution? then Listener(c.child, c.child in s.registry.entries)
                           else Immediate);
    }
  }

  /** However its handling ends, a command is put on the books, under its id and with a role that fits it, exactly
      when it is answerable and not a version request whose version cannot be converted; and only those are
      recorded as such. */
  lemma HandleAdmits(s: State, m: Message)
    requires m.IsCommand()
    ensures Admits(s, Handle(s, m).0, m, Answerable(m.command.value) && !Inconvertible(s, m), Inconvertible(s, m))
  {
    var c := m.command.value;
    if PassedOver(m) {
      assert Handle(s, m).0 == s;
    } else if Starts(c).None? {
      RestAdmits(s, m);
    } else {
      OneAdmitted(s, Handle(s, m).0, m,
                  if c.ExecuteChildWorkflow? then Child(ChildId(s, c.workflowId)) else Starts(c).value);
    }
  }

  /** The books agree with the messages consumed; what is recorded as not converted was a version request. */
  predicate Complete(s: State)
  {
    && Matches(s.log.accepted, Owed(s.input.consumed, s.log.unconverted))
    && OnlyVersions(s.input.consumed, s.log.unconverted)
  }

  predicate IsVersionRequest(x: Fate) { x.Taken? && x.msg.command.Some? && x.msg.command.value.GetVersion? }

  lemma DropComplete(s: State)
    requires Complete(s)
    ensures Complete(Drop(s))
  {
    OwedDropped(s.input.consumed, s.input.pipeline, s.log.unconverted);
  }

  /** Before the message just taken is handled, the books lack it. */
  lemma AdmitsComplete(s: State, s1: State, r: State, m: Message, fails: bool)
    requires Complete(s) && m.IsCommand() && s1.log == s.log
    requires r.input.consumed == s1.input.consumed == s.input.consumed + [Taken(m)]
    requires fails ==> m.command.value.GetVersion?
    requires Admits(s1, r, m, Answerable(m.command.value) && !fails, fails)
    ensures Complete(r)
  {
    OwedSnoc(s.input.consumed, Taken(m), r.log.unconverted);
    OwedFrame(s.input.consumed, s.log.unconverted, r.log.unconverted);
    OneMore(s.log.accepted, r.log.accepted, Owed(s.input.consumed, s.log.unconverted), m);
    MoreUnconverted(s.input.consumed, s.log.unconverted, r.log.unconverted, m, fails);
  }

  lemma OneMore(acc: seq<Accepted>, acc': seq<Accepted>, ms: seq<Message>, m: Message)
    requires Matches(acc, ms)
    ensures |acc'| == |acc| + 1 && acc'[..|acc|] == acc && IsEntryOf(acc'[|acc|], m) ==> Matches(acc', ms + [m])
  {
    if |acc'| == |acc| + 1 && acc'[..|acc|] == acc {
      assert forall i :: 0 <= i < |acc| ==> acc'[i] == acc[i];
    }
  }

  predicate OnlyVersions(fates: seq<Fate>, unconverted: set<nat>)
  {
    forall k :: k in unconverted ==> 1 <= k <= |fates| && IsVersionRequest(fates[k - 1])
  }

  lemma MoreUnconverted(fates: seq<Fate>, a: set<nat>, b: set<nat>, m: Message, fails: bool)
    requires OnlyVersions(fates, a) && m.IsCommand() && (fails ==> m.command.value.GetVersion?)
    requires b == a + (if fails then {|fates| + 1} else {})
    ensures OnlyVersions(fates + [Taken(m)], b)
  {
  }

  lemma HandleComplete(s: State, m: Message)
    requires Complete(s) && m.IsCommand() && s.input.pipeline != [] && s.input.pipeline[0] == m
    ensures Complete(Handle(Take(s), m).0)
  {
    HandleAdmits(Take(s), m);
    AdmitsComplete(s, Take(s), Handle(Take(s), m).0, m, Inconvertible(Take(s), m));
  }

  lemma TurnComplete(s: State)
    requires Complete(s) && s.input.pipeline != []
    ensures Complete(Turn(s).0)
  {
    var m := s.input.pipeline[0];
    OwedSnoc(s.input.consumed, Taken(m), s.log.unconverted);
    if !m.IsCommand() || m.IsUndefinedResponse() {
      assert Complete(Take(s));
      DropComplete(Take(s));
    } else {
      HandleComplete(s, m);
      DropComplete(Handle(Take(s), m).0);
    }
  }

  lemma {:induction false} LoopComplete(s: State)
    requires Complete(s)
    ensures Complete(Loop(s).0)
    decreases Budget(s)
  {
    if s.input.pipeline != [] {
      TurnComplete(s);
      LoopComplete(Turn(s).0);
    }
  }

  /** Through every task, however it ends, the books stay complete. */
  lemma TaskAdmits(s: State)
    requires Complete(s)
    ensures Complete(Task(s).0)
  {
    var s1 := FirstFlush(s).0;
    assert s1.log.unconverted == s.log.unconverted by {
      assert Flushed(RunCallbacks(SetLoop(s, true)), s1);
    }
    LoopComplete(HandleUpdates(s1));
  }

  lemma OthersAdmitNone(s: State, e: Event)
    requires !e.TaskStarted?
    ensures Step(s, e).log == s.log && Step(s, e).input == s.input
  {
  }

  lemma StepComplete(s: State, e: Event)
    requires Complete(s)
    ensures Complete(Step(s, e))
  {
    if e.TaskStarted? {
      TaskAdmits(WithOracles(s, e.answers, e.replies, e.ctx));
    } else {
      OthersAdmitNone(s, e);
    }
  }

  /** In every run, panicking tasks included, the commands on the books are exactly the answerable commands
      taken, in order, each with a role that fits it, but for version requests whose version could not be
      converted. Together with `Listeners.ExactlyOnePlace`, none of them is forgotten. */
  lemma {:induction false} BooksComplete(l: Launch, es: seq<Event>)
    ensures Complete(After(l, es))
    decreases |es|
  {
    if es != [] {
      var k := |es| - 1;
      var s := After(l, es[..k]);
      BooksComplete(l, es[..k]);
      StepComplete(s, es[k]);
    }
  }
}
