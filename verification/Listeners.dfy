/** Commands that wait for a child: which of them are lost, how often they are answered; and with that, the
    settlement of all commands. */
module Listeners {
  import opened Protocol
  import opened WorkflowModel
  import opened WorkflowInduction
  import opened Settlement

  // ---------------------------------------------------------------------------------------------
  // The invariant
  // ---------------------------------------------------------------------------------------------

  /** A later GetChildWorkflowExecution for the same child was handled before that child had started. */
  predicate Replaced(acc: seq<Accepted>, op: Op)
  {
    && op < |acc| && acc[op].role.Listener?
    && exists j :: op < j < |acc| && acc[j].role == Listener(acc[op].role.child, false)
  }

  /** Nothing has been received for the command. */
  predicate Silent(s: State, op: Op)
  {
    && (forall i :: 0 <= i < |s.out.sent| ==> s.out.sent[i].op != Some(op))
    && (forall i :: 0 <= i < |s.callbacks| ==> s.callbacks[i].op != op)
  }

  /** What is known of a command that listens: it is lost exactly if it was replaced; until its child starts,
      the last listener is the one stored; and nothing is received for it while it waits or once it is lost. */
  predicate ListenerSound(s: State, op: Op)
  {
    op < |s.log.accepted| && s.log.accepted[op].role.Listener? ==>
      var c := s.log.accepted[op].role.child;
      var lost := op in s.registry.lost;
      && (lost <==> Replaced(s.log.accepted, op))
      && (s.log.accepted[op].role.started ==> c in s.registry.entries)
      && (c !in s.registry.entries ==> c in s.registry.listeners && op <= s.registry.listeners[c].op)
      && (lost || c !in s.registry.entries ==> Silent(s, op))
      && (lost && c in s.registry.listeners ==> s.registry.listeners[c].op != op)
  }

  ghost predicate AllListeners(s: State) { forall op: Op :: ListenerSound(s, op) }

  ghost predicate Sound(s: State) { Books(s) && AllListeners(s) }

  // ---------------------------------------------------------------------------------------------
  // Its preservation
  // ---------------------------------------------------------------------------------------------

  /** The command is lost, or waits for a child that has not started. */
  predicate Guarded(s: State, op: Op)
  {
    && op < |s.log.accepted| && s.log.accepted[op].role.Listener?
    && (op in s.registry.lost || s.log.accepted[op].role.child !in s.registry.entries)
  }

  /** Steps that admit and listen for nothing, and receive only for commands that are neither lost nor
      waiting. */
  ghost predicate Unheard(s: State, r: State)
  {
    && r.log.accepted == s.log.accepted && r.registry == s.registry
    && forall op: Op :: Guarded(s, op) && Silent(s, op) ==> Silent(r, op)
  }

  lemma UnheardKept(s: State, r: State)
    requires AllListeners(s) && Unheard(s, r)
    ensures AllListeners(r)
  {
    forall op: Op ensures ListenerSound(r, op) {
      assert ListenerSound(s, op);
    }
  }

  lemma ReceiveUnheard(s: State, o: Op, id: Id, outcome: Outcome)
    requires !Guarded(s, o)
    ensures Unheard(s, Receive(s, o, id, outcome))
  {
  }

  lemma CompletedSound(s: State, o: Op, outcome: Outcome)
    requires Sound(s)
    ensures Sound(Fire(s, Completed(o, outcome)))
  {
    CompletedKept(s, o, outcome);
    if o in s.world.live {
      var s1 := s.(world := s.world.(live := s.world.live - {o}));
      UnheardKept(s, s1);
      ReceiveUnheard(s1, o, s.world.live[o], outcome);
      UnheardKept(s1, Receive(s1, o, s.world.live[o], outcome));
    }
  }

  lemma AnnouncedListeners(s: State, o: Op, outcome: Outcome)
    requires AllListeners(s) && o in s.world.starting
    ensures AllListeners(Announced(s, o, outcome))
  {
    forall op: Op ensures ListenerSound(Announced(s, o, outcome), op) {
      assert ListenerSound(s, op);
    }
  }

  lemma StartedSound(s: State, o: Op, outcome: Outcome)
    requires Sound(s)
    ensures Sound(Fire(s, Started(o, outcome)))
  {
    StartedKept(s, o, outcome);
    if o in s.world.starting {
      var s1 := Announced(s, o, outcome);
      AnnouncedListeners(s, o, outcome);
      var child := s.world.starting[o];
      if child in s.registry.listeners {
        var w := s.registry.listeners[child];
        assert ListenerSound(s1, w.op);
        ReceiveUnheard(s1, w.op, w.id, outcome);
        UnheardKept(s1, Receive(s1, w.op, w.id, outcome));
      }
    }
  }

  lemma SoundInCalls()
    ensures StableInCalls(Sound)
  {
    forall s: State, p: Prim | p.Firing? || p.Misc? ensures Kept(Sound, s, p) {
      if Sound(s) && Enabled(s, p) {
        match p
        case Firing(Completed(op, outcome)) => CompletedSound(s, op, outcome);
        case Firing(Started(op, outcome)) => StartedSound(s, op, outcome);
        case Misc(t) =>
          BooksKept(s, p);
          UnheardKept(s, t);
      }
    }
  }

  /** Admitting a command that is not a listener changes nothing for the listeners. */
  lemma AdmitSound(s: State, id: Id, role: Role, op: Op)
    requires Sound(s) && (role.Listener? ==> role.started)
    ensures op < |s.log.accepted| ==> ListenerSound(Admit(s, id, role), op)
  {
    assert ListenerSound(s, op);
    var acc := s.log.accepted;
    var acc' := acc + [Accepted(id, role)];
    if op < |acc| && acc[op].role.Listener? {
      assert Replaced(acc', op) <==> Replaced(acc, op) by {
        if Replaced(acc, op) {
          var j :| op < j < |acc| && acc[j].role == Listener(acc[op].role.child, false);
          assert acc'[j] == acc[j];
        }
      }
    }
  }

  lemma BeginSound(s: State, id: Id, role: Role)
    requires Sound(s) && !role.Listener? && !role.Immediate?
    ensures Sound(Begin(s, id, role))
  {
    BeginKept(s, id, role);
    var r := Begin(s, id, role);
    forall op: Op ensures ListenerSound(r, op) {
      AdmitSound(s, id, role, op);
    }
  }

  lemma StartSound(s: State, id: Id, role: Role)
    requires Sound(s) && !role.Listener? && !role.Immediate?
    ensures Sound(StartOp(s, id, role))
  {
    BeginSound(s, id, role);
    SoundInCalls();
    CallKeeps(Sound, Begin(s, id, role));
    StartKept(s, id, role);
    RegisterSamePlaces(s, id, role);
    UnheardKept(Call(Begin(s, id, role)), StartOp(s, id, role));
  }

  lemma RespondSound(s: State, id: Id, outcome: Outcome, discard: bool)
    requires Sound(s)
    ensures Sound(Respond(s, id, outcome, discard))
  {
    RespondKept(s, id, outcome, discard);
    var r := Respond(s, id, outcome, discard);
    forall op: Op ensures ListenerSound(r, op) {
      AdmitSound(s, id, Immediate, op);
    }
  }

  lemma StoredListeners(s: State, id: Id, child: Id)
    requires Sound(s) && child in s.registry.entries
    ensures AllListeners(Stored(s, id, child))
  {
    var r := Stored(s, id, child);
    forall op: Op ensures ListenerSound(r, op) {
      AdmitSound(s, id, Listener(child, true), op);
    }
  }

  /** The child has started: the new listener is answered, and the others stay as they are. */
  lemma LateListenSound(s: State, id: Id, child: Id)
    requires Sound(s) && child in s.registry.entries
    ensures Sound(Listen(s, id, child))
  {
    ListenKept(s, id, child);
    StoredListeners(s, id, child);
    var s1 := Stored(s, id, child);
    ReceiveUnheard(s1, |s.log.accepted|, id, s.registry.entries[child]);
    UnheardKept(s1, Receive(s1, |s.log.accepted|, id, s.registry.entries[child]));
  }

  /** The child has not started: the new listener replaces those before it, of which all but the last had been
      replaced already. */
  lemma ReplacedByListen(s: State, id: Id, child: Id, op: Op)
    requires Sound(s) && child !in s.registry.entries
    requires op < |s.log.accepted| && s.log.accepted[op].role.Listener?
    ensures var r := Listen(s, id, child);
            && (s.log.accepted[op].role.child == child ==> Replaced(r.log.accepted, op) && op in r.registry.lost)
            && (s.log.accepted[op].role.child != child ==>
                  (Replaced(r.log.accepted, op) <==> Replaced(s.log.accepted, op)))
  {
    var r := Listen(s, id, child);
    var acc, acc' := s.log.accepted, r.log.accepted;
    assert ListenerSound(s, op);
    assert acc'[|acc|].role == Listener(child, false);
    if acc[op].role.child == child {
      var last := s.registry.listeners[child].op;
      assert ListenerSound(s, last);
      assert op < last ==> acc[last].role == Listener(child, false);
    } else if Replaced(acc, op) {
      var j :| op < j < |acc| && acc[j].role == Listener(acc[op].role.child, false);
      assert acc'[j] == acc[j];
    }
  }

  lemma EarlyListenSound(s: State, id: Id, child: Id)
    requires Sound(s) && child !in s.registry.entries
    ensures Sound(Listen(s, id, child))
  {
    ListenKept(s, id, child);
    var r := Listen(s, id, child);
    forall op: Op ensures ListenerSound(r, op) {
      assert ListenerSound(s, op);
      if op < |s.log.accepted| && s.log.accepted[op].role.Listener? {
        ReplacedByListen(s, id, child, op);
      }
    }
  }

  lemma CancelSound(s: State, id: Id)
    requires Sound(s)
    ensures Sound(CancelOne(s, id))
  {
    if id in s.canceller {
      Settlement.FrameKept(s, Requesting(s, id));
      UnheardKept(s, Requesting(s, id));
      SoundInCalls();
      CallKeeps(Sound, Requesting(s, id));
    }
  }

  lemma SoundKept(s: State, p: Prim)
    requires Sound(s) && Enabled(s, p)
    ensures Sound(Apply(s, p))
  {
    match p
    case Firing(Completed(op, outcome)) => CompletedSound(s, op, outcome);
    case Firing(Started(op, outcome)) => StartedSound(s, op, outcome);
    case Starting(id, role) => StartSound(s, id, role);
    case Listening(id, child) =>
      if child in s.registry.entries {
        LateListenSound(s, id, child);
      } else {
        EarlyListenSound(s, id, child);
      }
    case Responding(id, outcome, discard) => RespondSound(s, id, outcome, discard);
    case Cancelling(id) => CancelSound(s, id);
    case _ =>
      BooksKept(s, p);
      PlainUnheard(s, p);
      UnheardKept(s, Apply(s, p));
  }

  lemma PlainUnheard(s: State, p: Prim)
    requires Enabled(s, p)
    requires p.Sending? || p.CallingBack? || p.Flushing? || p.Taking? || p.Dropping? || p.Discarding? || p.Misc?
    ensures Unheard(s, Apply(s, p))
  {
    if p.CallingBack? {
      assert forall i :: 0 <= i < |s.callbacks| - 1 ==> s.callbacks[1..][i] == s.callbacks[i + 1];
    }
  }

  lemma SoundStable()
    ensures Stable(Sound)
  {
    forall s, p ensures Kept(Sound, s, p) {
      if Sound(s) && Enabled(s, p) {
        SoundKept(s, p);
      }
    }
  }

  lemma AlwaysSound(l: Launch, es: seq<Event>)
    ensures Sound(After(l, es))
  {
    SoundStable();
    assert Books(After(l, [])) by { BooksAlways(l, []); }
    RunKeeps(Sound, Execute(l), es);
  }

  // ---------------------------------------------------------------------------------------------
  // Which commands are lost
  // ---------------------------------------------------------------------------------------------

  /** In every run, a command is lost in the registry if and only if a later GetChildWorkflowExecution for the
      same child was handled before that child had started. */
  lemma LostExactly(l: Launch, es: seq<Event>, op: Op)
    ensures var s := After(l, es);
            op in s.registry.lost <==> Replaced(s.log.accepted, op)
  {
    AlwaysSound(l, es);
    assert ListenerSound(After(l, es), op);
  }

  /** No two of the handled commands listen for the same child. */
  predicate OneListen(acc: seq<Accepted>)
  {
    forall i, j :: 0 <= i < j < |acc| && acc[i].role.Listener? && acc[j].role.Listener? ==>
      acc[i].role.child != acc[j].role.child
  }

  /** The places a command can be in, without reference to what the registry remembers as lost. */
  function HeldOrAnswered(s: State, op: Op): nat
  {
    One(Outstanding(s, op)) + One(Waits(s, op)) + DeferredCount(s.callbacks, op) + AnswerCount(s.out.sent, op)
  }

  /** Settlement: in every run, every handled command that is owed an answer is in exactly one place
      (outstanding in the environment, waiting in the registry, deferred, or answered) unless it was replaced as
      a listener, and then it is in none. With one Listen per child none is replaced. For commands other than
      GetChildWorkflowExecution nothing is asked of the worker; for those, distinct child ids. */
  lemma ExactlyOnePlace(l: Launch, es: seq<Event>, op: Op)
    requires Counted(After(l, es), op)
    ensures var s := After(l, es);
            && HeldOrAnswered(s, op) == One(!Replaced(s.log.accepted, op))
            && (OneListen(s.log.accepted) ==> HeldOrAnswered(s, op) == 1)
  {
    BooksAlways(l, es);
    LostExactly(l, es, op);
    assert Places(After(l, es), op) == 1;
  }

  /** Nothing is lost: a command that is not answered is still held by someone who can answer it, unless a
      listener for the same child was stored after it while the child had not started. */
  lemma UnansweredIsHeld(l: Launch, es: seq<Event>, op: Op)
    requires var s := After(l, es);
             Counted(s, op) && forall i :: 0 <= i < |s.out.sent| ==> s.out.sent[i].op != Some(op)
    ensures var s := After(l, es);
            || Outstanding(s, op) || Waits(s, op)
            || (exists i :: 0 <= i < |s.callbacks| && s.callbacks[i].op == op)
            || Replaced(s.log.accepted, op)
    ensures OneListen(After(l, es).log.accepted) ==> !Replaced(After(l, es).log.accepted, op)
  {
    var s := After(l, es);
    ExactlyOnePlace(l, es, op);
    NoAnswers(s.out.sent, op);
    if forall i :: 0 <= i < |s.callbacks| ==> s.callbacks[i].op != op {
      NoneDeferred(s.callbacks, op);
    }
  }

  ghost predicate LostAndSound(s: State, op: Op) { Sound(s) && op in s.registry.lost }

  lemma {:induction false} FireAllKeepsLost(s: State, fs: seq<WorkflowModel.Firing>)
    ensures FireAll(s, fs).registry.lost == s.registry.lost
    decreases |fs|
  {
    if fs != [] {
      FireAllKeepsLost(Fire(s, fs[0]), fs[1..]);
    }
  }

  lemma LostStays(s: State, p: Prim)
    requires Enabled(s, p)
    ensures s.registry.lost <= Apply(s, p).registry.lost
  {
    match p
    case Starting(id, role) =>
      var b := Begin(s, id, role);
      FireAllKeepsLost(Popped(b), Answered(b).fires);
    case Cancelling(id) =>
      if id in s.canceller {
        var b := Requesting(s, id);
        FireAllKeepsLost(Popped(b), Answered(b).fires);
      }
    case _ =>
  }

  /** A lost command is lost for good: whatever happens from then on, nothing is ever received for it. */
  lemma LostForGood(s: State, es: seq<Event>, op: Op)
    requires LostAndSound(s, op)
    ensures LostAndSound(Run(s, es), op) && Silent(Run(s, es), op)
  {
    var inv := t => LostAndSound(t, op);
    forall t, p ensures Kept(inv, t, p) {
      if inv(t) && Enabled(t, p) {
        SoundKept(t, p);
        LostStays(t, p);
      }
    }
    RunKeeps(inv, s, es);
    assert ListenerSound(Run(s, es), op);
  }

  /** A second Listen before the child has started loses the first: no continuation ever answers it. */
  lemma SecondListenOverwrites(s: State, first: Id, second: Id, child: Id, es: seq<Event>)
    requires Sound(s) && child !in s.registry.entries
    ensures var r := Run(Listen(Listen(s, first, child), second, child), es);
            AnswerCount(r.out.sent, |s.log.accepted|) == 0
  {
    var s1 := Listen(s, first, child);
    var s2 := Listen(s1, second, child);
    EarlyListenSound(s, first, child);
    EarlyListenSound(s1, second, child);
    LostForGood(s2, es, |s.log.accepted|);
    NoAnswers(Run(s2, es).out.sent, |s.log.accepted|);
  }

  /** In every run, a replaced command is not answered, and is not answered in any continuation either. */
  lemma ReplacedIsNeverAnswered(l: Launch, es: seq<Event>, more: seq<Event>, op: Op)
    requires Replaced(After(l, es).log.accepted, op)
    ensures AnswerCount(After(l, es + more).out.sent, op) == 0
  {
    AlwaysSound(l, es);
    LostExactly(l, es, op);
    LostForGood(After(l, es), more, op);
    RunSplit(Execute(l), es, more);
    NoAnswers(After(l, es + more).out.sent, op);
  }

  // ---------------------------------------------------------------------------------------------
  // How often a listener is answered
  // ---------------------------------------------------------------------------------------------

  /** How often something has been received for the command. */
  function Served(s: State, op: Op): nat { DeferredCount(s.callbacks, op) + AnswerCount(s.out.sent, op) }

  /** The start handlers the environment holds for children under this id. */
  function Pending(s: State, child: Id): set<Op>
  {
    set o | o in s.world.starting && s.world.starting[o] == child
  }

  /** What the listener of a child has received, and what it may still receive. */
  function Total(s: State, child: Id): nat
    requires child in s.registry.listeners
  {
    Served(s, s.registry.listeners[child].op) + |Pending(s, child)|
  }

  lemma FireTickets(s: State, f: WorkflowModel.Firing)
    requires Tickets(s)
    ensures Tickets(Fire(s, f)) && Fire(s, f).registry.listeners == s.registry.listeners
  {
    match f
    case Completed(o, outcome) =>
      if o in s.world.live {
        ReceiveTickets(s.(world := s.world.(live := s.world.live - {o})), o, s.world.live[o], outcome);
      }
    case Started(o, outcome) =>
      if o in s.world.starting {
        var child := s.world.starting[o];
        AnnouncedTickets(s, o, outcome);
        if child in s.registry.listeners {
          var w := s.registry.listeners[child];
          ReceiveTickets(Announced(s, o, outcome), w.op, w.id, outcome);
        }
      }
  }

  lemma ReceiveServes(s: State, o: Op, id: Id, outcome: Outcome, op: Op)
    ensures Served(Receive(s, o, id, outcome), op) == Served(s, op) + One(o == op)
  {
    DeferredCountSnoc(s.callbacks, Deferred(o, id, outcome), op);
    AnswerCountSnoc(s.out.sent, Sent(AnswerMessage(id, outcome), Some(o)), op);
  }

  lemma ReceiveTotal(s: State, o: Op, id: Id, outcome: Outcome, child: Id)
    requires child in s.registry.listeners
    ensures Total(Receive(s, o, id, outcome), child) == Total(s, child) + One(o == s.registry.listeners[child].op)
  {
    ReceiveServes(s, o, id, outcome, s.registry.listeners[child].op);
    assert Pending(Receive(s, o, id, outcome), child) == Pending(s, child);
  }

  lemma CompletedConserves(s: State, o: Op, outcome: Outcome, child: Id)
    requires Tickets(s) && child in s.registry.listeners && o in s.world.live
    ensures Total(Fire(s, Completed(o, outcome)), child) == Total(s, child)
  {
    var s1 := s.(world := s.world.(live := s.world.live - {o}));
    assert Pending(s1, child) == Pending(s, child);
    ReceiveTotal(s1, o, s.world.live[o], outcome, child);
  }

  lemma AnnouncedTotal(s: State, o: Op, outcome: Outcome, child: Id)
    requires child in s.registry.listeners && o in s.world.starting
    ensures Total(Announced(s, o, outcome), child) + One(s.world.starting[o] == child) == Total(s, child)
  {
    assert Pending(Announced(s, o, outcome), child)
        == Pending(s, child) - (if s.world.starting[o] == child then {o} else {});
  }

  lemma StartedConserves(s: State, o: Op, outcome: Outcome, child: Id)
    requires Tickets(s) && child in s.registry.listeners && o in s.world.starting
    ensures Total(Fire(s, Started(o, outcome)), child) == Total(s, child)
  {
    var c := s.world.starting[o];
    AnnouncedTotal(s, o, outcome, child);
    if c in s.registry.listeners {
      var w := s.registry.listeners[c];
      ReceiveTotal(Announced(s, o, outcome), w.op, w.id, outcome, child);
      assert w.op == s.registry.listeners[child].op <==> c == child;
    }
  }

  /** Whatever handler the environment invokes, what the listener has received and may still receive stays. */
  lemma FireConserves(s: State, f: WorkflowModel.Firing, child: Id)
    requires Tickets(s) && child in s.registry.listeners
    ensures child in Fire(s, f).registry.listeners && Total(Fire(s, f), child) == Total(s, child)
  {
    FireTickets(s, f);
    match f
    case Completed(o, outcome) =>
      if o in s.world.live {
        CompletedConserves(s, o, outcome, child);
      }
    case Started(o, outcome) =>
      if o in s.world.starting {
        StartedConserves(s, o, outcome, child);
      }
  }

  lemma {:induction false} FireAllConserves(s: State, fs: seq<WorkflowModel.Firing>, child: Id)
    requires Tickets(s) && child in s.registry.listeners
    ensures FireAll(s, fs).registry.listeners == s.registry.listeners
    ensures Total(FireAll(s, fs), child) == Total(s, child)
    decreases |fs|
  {
    if fs != [] {
      FireTickets(s, fs[0]);
      FireConserves(s, fs[0], child);
      FireAllConserves(Fire(s, fs[0]), fs[1..], child);
    }
  }

  /** Invoking all start handlers of the child. */
  lemma {:induction false} FirePending(s: State, child: Id) returns (fs: seq<WorkflowModel.Firing>)
    ensures Pending(FireAll(s, fs), child) == {}
    decreases |Pending(s, child)|
  {
    if Pending(s, child) == {} {
      fs := [];
    } else {
      var o :| o in Pending(s, child);
      var f := Started(o, Ok(None));
      assert Pending(Fire(s, f), child) == Pending(s, child) - {o};
      var rest := FirePending(Fire(s, f), child);
      fs := [f] + rest;
      assert fs[1..] == rest;
    }
  }

  /** The listener of a child is answered or deferred at most once in total, whatever the environment does, if
      and only if what it has received and the start handlers still held for the child are at most one. So two
      children under one id, both requested before the Listen, are harmless exactly when both had started before
      the Listen was stored. */
  lemma AnsweredAtMostOnce(s: State, child: Id)
    requires Tickets(s) && child in s.registry.listeners
    ensures (forall fs :: Served(FireAll(s, fs), s.registry.listeners[child].op) <= 1) <==> Total(s, child) <= 1
  {
    if Total(s, child) <= 1 {
      forall fs ensures Served(FireAll(s, fs), s.registry.listeners[child].op) <= 1 {
        FireAllConserves(s, fs, child);
      }
    } else {
      var fs := FirePending(s, child);
      FireAllConserves(s, fs, child);
      assert Served(FireAll(s, fs), s.registry.listeners[child].op) > 1;
    }
  }

  /** It happens: two children started under one id call the same listener twice. */
  lemma ReusedChildIdAnswersTwice(s: State, a: Op, b: Op, outcome: Outcome)
    requires Tickets(s) && s.inLoop && a != b && a in s.world.starting && b in s.world.starting
    requires s.world.starting[a] == s.world.starting[b] && s.world.starting[a] in s.registry.listeners
    ensures var w := s.registry.listeners[s.world.starting[a]];
            AnswerCount(FireAll(s, [Started(a, outcome), Started(b, outcome)]).out.sent, w.op)
              == AnswerCount(s.out.sent, w.op) + 2
  {
    var w := s.registry.listeners[s.world.starting[a]];
    var x := Sent(AnswerMessage(w.id, outcome), Some(w.op));
    var fs := [Started(a, outcome), Started(b, outcome)];
    var s1 := Fire(s, fs[0]);
    var s2 := Fire(s1, fs[1]);
    assert fs[1..] == [fs[1]] && fs[1..][1..] == [];
    assert FireAll(s1, fs[1..]) == s2;
    assert s2.out.sent == s.out.sent + [x] + [x];
    AnswerCountSnoc(s.out.sent, x, w.op);
    AnswerCountSnoc(s.out.sent + [x], x, w.op);
  }
}
