/** Cancel requests never race a completion the host has already received. */
module Cancellation {
  import opened Protocol
  import opened WorkflowModel
  import opened WorkflowInduction

  predicate IsDeferred(ds: seq<Deferred>, op: Op)
  {
    exists i :: 0 <= i < |ds| && ds[i].op == op
  }

  predicate Requested(requests: seq<Request>, op: Op)
  {
    exists i :: 0 <= i < |requests| && requests[i].op == op
  }

  /** Everything that can complete or cancel a command names that command. */
  predicate AllNamed(s: State)
  {
    && (forall op :: op in s.world.live ==> Names(s, op, s.world.live[op]) && op !in s.log.early)
    && (forall i :: 0 <= i < |s.callbacks| ==> Names(s, s.callbacks[i].op, s.callbacks[i].id))
    && (forall c :: c in s.registry.listeners ==> Names(s, s.registry.listeners[c].op, s.registry.listeners[c].id))
    && (forall op :: op in s.log.early ==> op < |s.log.accepted|)
  }

  /** A registered canceller belongs to an operation that was never asked to cancel and whose completion has
      not been processed, unless that operation completed inside its own start call. */
  predicate EntrySound(s: State, id: Id, op: Op)
  {
    && Names(s, op, id) && !Requested(s.log.requested, op)
    && (op in s.log.early || op in s.world.live || IsDeferred(s.callbacks, op))
  }

  predicate TableSound(s: State)
  {
    forall id :: id in s.canceller ==> EntrySound(s, id, s.canceller[id].op)
  }

  /** What is recorded of every request: no callback was deferred, and the operation was still running
      exactly when it had not completed inside its own start call. */
  predicate RequestSound(s: State, r: Request)
  {
    r.op < |s.log.accepted| && r.deferred == 0 && (r.live <==> r.op !in s.log.early)
  }

  predicate RequestsSound(s: State)
  {
    && (forall i :: 0 <= i < |s.log.requested| ==> RequestSound(s, s.log.requested[i]))
    && (forall i, j :: 0 <= i < j < |s.log.requested| ==> s.log.requested[i].op != s.log.requested[j].op)
  }

  predicate Sound(s: State)
  {
    AllNamed(s) && TableSound(s) && RequestsSound(s)
  }

  // ---------------------------------------------------------------------------------------------
  // Completions
  // ---------------------------------------------------------------------------------------------

  /** Processing a completion of `o` discards the only canceller that may belong to it. */
  lemma SettleKept(s: State, s1: State, o: Op, id: Id, outcome: Outcome)
    requires Sound(s) && Names(s, o, id) && AllNamed(s1)
    requires s1.log == s.log && s1.canceller == s.canceller
    requires forall op :: op in s.world.live && op != o ==> op in s1.world.live
    requires forall op :: IsDeferred(s.callbacks, op) && op != o ==> IsDeferred(s1.callbacks, op)
    ensures Sound(Settle(s1, o, id, outcome))
  {
  }

  /** Outside the loop the completion of `o` is deferred and its canceller stays. */
  lemma DeferKept(s: State, s1: State, o: Op, id: Id, outcome: Outcome)
    requires Sound(s) && Names(s, o, id) && AllNamed(s1)
    requires s1.log == s.log && s1.canceller == s.canceller && s1.callbacks == s.callbacks
    requires forall op :: op in s.world.live && op != o ==> op in s1.world.live
    ensures Sound(s1.(callbacks := s1.callbacks + [Deferred(o, id, outcome)]))
  {
    var r := s1.(callbacks := s1.callbacks + [Deferred(o, id, outcome)]);
    forall k | k in r.canceller ensures EntrySound(r, k, r.canceller[k].op) {
      var op := s.canceller[k].op;
      assert EntrySound(s, k, op);
      assert r.callbacks[|s.callbacks|].op == o;
      if IsDeferred(s.callbacks, op) {
        var i :| 0 <= i < |s.callbacks| && s.callbacks[i].op == op;
        assert r.callbacks[i].op == op;
      }
    }
  }

  lemma ReceiveKept(s: State, s1: State, o: Op, id: Id, outcome: Outcome)
    requires Sound(s) && Names(s, o, id) && AllNamed(s1)
    requires s1.log == s.log && s1.canceller == s.canceller && s1.callbacks == s.callbacks
    requires forall op :: op in s.world.live && op != o ==> op in s1.world.live
    ensures Sound(Receive(s1, o, id, outcome))
  {
    if s1.inLoop {
      SettleKept(s, Hear(s1, o, id, outcome), o, id, outcome);
    } else {
      DeferKept(s, Hear(s1, o, id, outcome), o, id, outcome);
    }
  }

  lemma CompletedKept(s: State, o: Op, outcome: Outcome)
    requires Sound(s)
    ensures Sound(Fire(s, Completed(o, outcome)))
  {
    if o in s.world.live {
      var s1 := s.(world := s.world.(live := s.world.live - {o}));
      ReceiveKept(s, s1, o, s.world.live[o], outcome);
    }
  }

  lemma StartedKept(s: State, o: Op, outcome: Outcome)
    requires Sound(s)
    ensures Sound(Fire(s, Started(o, outcome)))
  {
    if o in s.world.starting {
      var child := s.world.starting[o];
      var s1 := Announced(s, o, outcome);
      FrameKept(s, s1);
      if child in s.registry.listeners {
        var w := s.registry.listeners[child];
        ReceiveKept(s1, s1, w.op, w.id, outcome);
      }
    }
  }

  lemma FireKept(s: State, f: WorkflowModel.Firing)
    requires Sound(s)
    ensures Sound(Fire(s, f))
  {
    match f
    case Completed(o, outcome) => CompletedKept(s, o, outcome);
    case Started(o, outcome) => StartedKept(s, o, outcome);
  }

  /** Agreement on everything soundness speaks about. */
  predicate SameTable(s: State, r: State)
  {
    && r.callbacks == s.callbacks && r.canceller == s.canceller && r.registry.listeners == s.registry.listeners
    && r.world.live == s.world.live && r.log.accepted == s.log.accepted
    && r.log.requested == s.log.requested && r.log.early == s.log.early
  }

  lemma FrameKept(s: State, r: State)
    requires Sound(s) && SameTable(s, r)
    ensures Sound(r)
  {
  }

  lemma SoundInCalls()
    ensures StableInCalls(Sound)
  {
    forall s: State, p: Prim | p.Firing? || p.Misc? ensures Kept(Sound, s, p) {
      if Sound(s) && Enabled(s, p) {
        match p
        case Firing(f) => FireKept(s, f);
        case Misc(t) => FrameKept(s, t);
      }
    }
  }

  // ---------------------------------------------------------------------------------------------
  // The other steps
  // ---------------------------------------------------------------------------------------------

  /** A newly admitted command changes nothing for the others. */
  lemma AdmitKept(s: State, id: Id, role: Role)
    requires Sound(s)
    ensures Sound(Admit(s, id, role))
  {
  }

  lemma BeginKept(s: State, id: Id, role: Role)
    requires Sound(s)
    ensures Sound(Begin(s, id, role))
  {
  }

  /** A command that is no longer live when its start call returns has completed in that call. */
  lemma AfterStartKept(s: State, o: Op, id: Id, role: Role, nilTimer: bool)
    requires Sound(s) && o == |s.log.accepted| - 1 && Names(s, o, id) && !Requested(s.log.requested, o)
    ensures Sound(AfterStart(s, o, id, role, nilTimer))
  {
  }

  lemma StartKept(s: State, id: Id, role: Role)
    requires Sound(s)
    ensures Sound(StartOp(s, id, role))
  {
    var o := |s.log.accepted|;
    BeginKept(s, id, role);
    SoundInCalls();
    CallKeeps(Sound, Begin(s, id, role));
    var s1 := Call(Begin(s, id, role));
    assert !Requested(s1.log.requested, o) by {
      assert forall i :: 0 <= i < |s.log.requested| ==> RequestSound(s, s.log.requested[i]);
    }
    AfterStartKept(s1, o, id, role, Answered(s).nilTimer);
  }

  lemma ListenKept(s: State, id: Id, child: Id)
    requires Sound(s)
    ensures Sound(Listen(s, id, child))
  {
    var o := |s.log.accepted|;
    var reg := s.registry;
    AdmitKept(s, id, Listener(child, child in reg.entries));
    var a := Admit(s, id, Listener(child, child in reg.entries));
    var s1 := Stored(s, id, child);
    assert Sound(s1) by {
      forall k | k in s1.canceller ensures EntrySound(s1, k, s1.canceller[k].op) {
        assert EntrySound(a, k, a.canceller[k].op);
      }
      assert forall i :: 0 <= i < |s1.log.requested| ==> RequestSound(a, s1.log.requested[i]);
    }
    if child in reg.entries {
      ReceiveKept(s1, s1, o, id, reg.entries[child]);
    }
  }

  lemma RespondKept(s: State, id: Id, outcome: Outcome, discard: bool)
    requires Sound(s)
    ensures Sound(Respond(s, id, outcome, discard))
  {
  }

  /** The table entry leaves before the request is recorded, so the operation is never asked again. */
  lemma RequestKept(s: State, id: Id)
    requires Sound(s) && Handling(s) && id in s.canceller
    ensures Sound(Requesting(s, id))
  {
  }

  lemma CancelKept(s: State, id: Id)
    requires Sound(s) && Handling(s)
    ensures Sound(CancelOne(s, id))
  {
    if id in s.canceller {
      RequestKept(s, id);
      SoundInCalls();
      CallKeeps(Sound, Requesting(s, id));
    }
  }

  lemma CallbackKept(s: State)
    requires Sound(s) && s.callbacks != []
    ensures Sound(RunCallback(s))
  {
  }

  lemma SoundKept(s: State, p: Prim)
    requires Sound(s) && Enabled(s, p)
    ensures Sound(Apply(s, p))
  {
    match p
    case Firing(f) => FireKept(s, f);
    case CallingBack => CallbackKept(s);
    case Starting(id, role) => StartKept(s, id, role);
    case Listening(id, child) => ListenKept(s, id, child);
    case Responding(id, outcome, discard) => RespondKept(s, id, outcome, discard);
    case Cancelling(id) => CancelKept(s, id);
    case Misc(t) => FrameKept(s, t);
    case _ =>
      PlainSameTable(s, p);
      FrameKept(s, Apply(s, p));
  }

  lemma PlainSameTable(s: State, p: Prim)
    requires Enabled(s, p) && (p.Sending? || p.Flushing? || p.Taking? || p.Dropping? || p.Discarding?)
    ensures SameTable(s, Apply(s, p))
  {
  }

  lemma SoundStable()
    ensures Stable(Sound)
  {
    forall s, p ensures Kept(Sound, s, p) {
      if Sound(s) && Enabled(s, p) {
        SoundKept(s, p);
      }
    }
  }

  // ---------------------------------------------------------------------------------------------
  // The theorem
  // ---------------------------------------------------------------------------------------------

  /** In every run, every cancel request was made with no completion deferred; it reached an operation that
      had not completed exactly when that operation did not complete inside its own start call; and no
      operation was asked to cancel twice. */
  lemma CancelNeverRaces(l: Launch, es: seq<Event>)
    ensures Sound(After(l, es))
    ensures var s := After(l, es);
            && (forall i :: 0 <= i < |s.log.requested| ==>
                  var r := s.log.requested[i]; r.deferred == 0 && (r.live <==> r.op !in s.log.early))
            && (forall i, j :: 0 <= i < j < |s.log.requested| ==> s.log.requested[i].op != s.log.requested[j].op)
  {
    SoundStable();
    RunKeeps(Sound, Execute(l), es);
    var s := After(l, es);
    assert forall i :: 0 <= i < |s.log.requested| ==> RequestSound(s, s.log.requested[i]);
  }

  predicate Completes(fs: seq<WorkflowModel.Firing>, op: Op)
  {
    exists i :: 0 <= i < |fs| && fs[i].Completed? && fs[i].op == op
  }

  lemma {:induction false} FiredIsGone(s: State, fs: seq<WorkflowModel.Firing>, op: Op)
    ensures op in FireAll(s, fs).world.live <==> op in s.world.live && !Completes(fs, op)
    decreases |fs|
  {
    if fs != [] {
      FiredIsGone(Fire(s, fs[0]), fs[1..], op);
      assert Completes(fs, op) <==> (fs[0].Completed? && fs[0].op == op) || Completes(fs[1..], op) by {
        assert forall i :: 0 <= i < |fs[1..]| ==> fs[1..][i] == fs[i + 1];
        if Completes(fs, op) {
          var i :| 0 <= i < |fs| && fs[i].Completed? && fs[i].op == op;
          assert i > 0 ==> fs[1..][i - 1] == fs[i];
        }
      }
    }
  }

  /** `early` holds exactly the operations whose result handler the environment invoked in the start call. */
  lemma EarlyMeansCompletedInStart(s: State, id: Id, role: Role)
    requires Sound(s)
    ensures |s.log.accepted| in StartOp(s, id, role).log.early <==> Completes(Answered(s).fires, |s.log.accepted|)
    ensures StartOp(s, id, role).log.early - {|s.log.accepted|} == s.log.early
  {
    var o := |s.log.accepted|;
    var b := Begin(s, id, role);
    FiredIsGone(Popped(b), Answered(s).fires, o);
    assert o !in s.log.early;
  }

  /** ...and no other step adds to it. */
  lemma EarlyElsewhere(s: State, p: Prim)
    requires Enabled(s, p) && !p.Starting?
    ensures Apply(s, p).log.early == s.log.early
  {
  }

  /** The stale entry is real: an activity that completes inside its own start call keeps a canceller, and a
      Cancel for it makes a request about an operation that is already answered. */
  lemma EarlyCompletionLeavesStaleCanceller(s: State, id: Id, outcome: Outcome, rest: seq<Answer>)
    requires Sound(s) && Handling(s)
    requires s.world.answers == [Answer([Completed(|s.log.accepted|, outcome)], Ok(None), false)] + rest
    ensures var o := |s.log.accepted|;
            var s1 := StartOp(s, id, Activity);
            && id in s1.canceller && s1.canceller[id] == Cancellable(o, true)
            && s1.out.sent == s.out.sent + [Sent(AnswerMessage(id, outcome), Some(o))]
            && Request(o, false, 0) in CancelOne(s1, id).log.requested
  {
    var o := |s.log.accepted|;
    var b := Begin(s, id, Activity);
    var s0 := b.(world := b.world.(answers := b.world.answers[1..]));
    var fs := [Completed(o, outcome)];
    assert fs[1..] == [];
    assert FireAll(s0, fs) == Fire(s0, fs[0]);
    var s1 := StartOp(s, id, Activity);
    assert o !in s1.world.live;
    assert CancelOne(s1, id).log.requested == s1.log.requested + [Request(o, false, 0)];
  }
}
