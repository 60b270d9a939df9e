/** A Cancel reaches the operation it names, as long as the worker does not reuse ids. */
module CancelReach {
  import opened Protocol
  import opened WorkflowModel
  import opened WorkflowInduction
  import opened Cancellation
  import Settlement

  /** The operation runs, can be cancelled, has not been asked to, and is not a timer without a timer id. */
  predicate Wants(s: State, op: Op)
  {
    && op in s.world.live && op < |s.log.accepted| && HasCanceller(s.log.accepted[op].role)
    && !Requested(s.log.requested, op) && op !in s.log.inert
  }

  /** The canceller registered under the operation's id is the operation's own. */
  predicate Reachable(s: State, op: Op)
  {
    Wants(s, op) ==>
      var id := s.log.accepted[op].id;
      id in s.canceller && s.canceller[id] == Cancellable(op, true)
  }

  /** Commands with a deferred completion or a listener have no handler left in the environment. */
  predicate NotLive(s: State)
  {
    && (forall i :: 0 <= i < |s.callbacks| ==> s.callbacks[i].op !in s.world.live)
    && (forall c :: c in s.registry.listeners ==> s.registry.listeners[c].op !in s.world.live)
  }

  /** The entries that ask for nothing are those of timers without a timer id. */
  predicate InertSound(s: State)
  {
    && (forall op :: op in s.log.inert ==> op < |s.log.accepted|)
    && (forall id :: id in s.canceller ==> (s.canceller[id].live <==> s.canceller[id].op !in s.log.inert))
  }

  ghost predicate Ready(s: State, but: set<Op>)
  {
    && Sound(s) && NotLive(s) && InertSound(s)
    && (Settlement.DistinctIds(s.log.accepted) ==> forall op: Op :: op !in but ==> Reachable(s, op))
  }

  // ---------------------------------------------------------------------------------------------
  // Completions
  // ---------------------------------------------------------------------------------------------

  /** A completion of `o` takes at most the canceller under its own id, and `o` no longer runs. */
  lemma CompletionReady(s: State, r: State, but: set<Op>, o: Op, id: Id)
    requires Ready(s, but) && Sound(r) && NotLive(r) && r.log == s.log && Names(s, o, id)
    requires o !in r.world.live && forall op :: op in r.world.live ==> op in s.world.live
    requires r.canceller == s.canceller || r.canceller == s.canceller - {id}
    ensures Ready(r, but)
  {
  }

  lemma FrameReady(s: State, r: State, but: set<Op>)
    requires Ready(s, but) && SameTable(s, r) && r.log.inert == s.log.inert
    ensures Ready(r, but)
  {
  }

  lemma CompletedReady(s: State, but: set<Op>, o: Op, outcome: Outcome)
    requires Ready(s, but)
    ensures Ready(Fire(s, Completed(o, outcome)), but)
  {
    if o in s.world.live {
      CompletedKept(s, o, outcome);
      CompletionReady(s, Fire(s, Completed(o, outcome)), but, o, s.world.live[o]);
    }
  }

  lemma StartedReady(s: State, but: set<Op>, o: Op, outcome: Outcome)
    requires Ready(s, but)
    ensures Ready(Fire(s, Started(o, outcome)), but)
  {
    if o in s.world.starting {
      StartedKept(s, o, outcome);
      var r := Fire(s, Started(o, outcome));
      var child := s.world.starting[o];
      if child in s.registry.listeners {
        CompletionReady(s, r, but, s.registry.listeners[child].op, s.registry.listeners[child].id);
      } else {
        FrameReady(s, r, but);
      }
    }
  }

  lemma ReadyInCalls(but: set<Op>)
    ensures StableInCalls(s => Ready(s, but))
  {
    var inv := s => Ready(s, but);
    forall s: State, p: Prim | p.Firing? || p.Misc? ensures Kept(inv, s, p) {
      if inv(s) && Enabled(s, p) {
        match p
        case Firing(Completed(op, outcome)) => CompletedReady(s, but, op, outcome);
        case Firing(Started(op, outcome)) => StartedReady(s, but, op, outcome);
        case Misc(t) => FrameReady(s, t, but);
      }
    }
  }

  lemma CallReady(s: State, but: set<Op>)
    requires Ready(s, but)
    ensures Ready(Call(s), but)
  {
    ReadyInCalls(but);
    CallKeeps(s => Ready(s, but), s);
  }

  // ---------------------------------------------------------------------------------------------
  // The other steps
  // ---------------------------------------------------------------------------------------------

  lemma DistinctIdsPrefix(acc: seq<Accepted>, x: Accepted)
    requires Settlement.DistinctIds(acc + [x])
    ensures Settlement.DistinctIds(acc) && forall i :: 0 <= i < |acc| ==> acc[i].id != x.id
  {
    var all := acc + [x];
    assert forall i :: 0 <= i < |acc| ==> all[i] == acc[i];
    assert all[|acc|] == x;
  }

  /** A newly admitted command may use up an entry under its own id; no other command has that id. */
  lemma AdmittedReady(s: State, r: State, id: Id, role: Role)
    requires Ready(s, {}) && Sound(r) && NotLive(r) && r.log == Admit(s, id, role).log
    requires forall op :: op in r.world.live && op < |s.log.accepted| ==> op in s.world.live
    requires r.canceller == s.canceller || r.canceller == s.canceller - {id}
    ensures Ready(r, {|s.log.accepted|})
    ensures |s.log.accepted| !in r.world.live ==> Ready(r, {})
  {
    var acc := s.log.accepted;
    if Settlement.DistinctIds(r.log.accepted) {
      DistinctIdsPrefix(acc, Accepted(id, role));
      forall op: Op | op != |acc| || |acc| !in r.world.live ensures Reachable(r, op) {
        assert Reachable(s, op);
      }
    }
  }

  lemma BeginReady(s: State, id: Id, role: Role)
    requires Ready(s, {})
    ensures Ready(Begin(s, id, role), {|s.log.accepted|})
  {
    BeginKept(s, id, role);
    AdmittedReady(s, Begin(s, id, role), id, role);
  }

  /** The canceller is registered under an id that is the operation's alone. */
  lemma AfterStartReady(s: State, o: Op, id: Id, role: Role, nilTimer: bool)
    requires Ready(s, {o}) && o == |s.log.accepted| - 1 && s.log.accepted[o] == Accepted(id, role)
    requires !Requested(s.log.requested, o) && o !in s.log.inert
    ensures Ready(AfterStart(s, o, id, role, nilTimer), {})
  {
    AfterStartKept(s, o, id, role, nilTimer);
    var r := AfterStart(s, o, id, role, nilTimer);
    forall k | k in r.canceller ensures r.canceller[k].live <==> r.canceller[k].op !in r.log.inert {
      if k in s.canceller && (k != id || !HasCanceller(role)) {
        assert EntrySound(s, k, s.canceller[k].op);
      }
    }
    if Settlement.DistinctIds(s.log.accepted) {
      forall op: Op ensures Reachable(r, op) {
        assert op != o ==> Reachable(s, op);
      }
    }
  }

  lemma StartReady(s: State, id: Id, role: Role)
    requires Ready(s, {})
    ensures Ready(StartOp(s, id, role), {})
  {
    var o := |s.log.accepted|;
    BeginReady(s, id, role);
    CallReady(Begin(s, id, role), {o});
    var s1 := Call(Begin(s, id, role));
    assert !Requested(s1.log.requested, o) by {
      assert forall i :: 0 <= i < |s.log.requested| ==> RequestSound(s, s.log.requested[i]);
    }
    AfterStartReady(s1, o, id, role, Answered(s).nilTimer);
  }

  lemma ListenReady(s: State, id: Id, child: Id)
    requires Ready(s, {})
    ensures Ready(Listen(s, id, child), {})
  {
    ListenKept(s, id, child);
    AdmittedReady(s, Listen(s, id, child), id, Listener(child, child in s.registry.entries));
  }

  lemma RespondReady(s: State, id: Id, outcome: Outcome, discard: bool)
    requires Ready(s, {})
    ensures Ready(Respond(s, id, outcome, discard), {})
  {
    RespondKept(s, id, outcome, discard);
    AdmittedReady(s, Respond(s, id, outcome, discard), id, Immediate);
  }

  lemma RequestReady(s: State, id: Id)
    requires Ready(s, {}) && Handling(s) && id in s.canceller
    ensures Ready(Requesting(s, id), {})
  {
    RequestKept(s, id);
    var r := Requesting(s, id);
    if Settlement.DistinctIds(s.log.accepted) {
      forall op: Op ensures Reachable(r, op) {
        assert Reachable(s, op);
        RequestedGrows(s, id, op);
      }
    }
  }

  lemma RequestedGrows(s: State, id: Id, op: Op)
    requires id in s.canceller
    ensures Requested(Requesting(s, id).log.requested, op) <==>
              Requested(s.log.requested, op) || s.canceller[id] == Cancellable(op, true)
  {
    var before, after := s.log.requested, Requesting(s, id).log.requested;
    assert forall i :: 0 <= i < |before| ==> after[i] == before[i];
    if s.canceller[id].live {
      assert after[|before|].op == s.canceller[id].op;
    }
  }

  lemma CancelReady(s: State, id: Id)
    requires Ready(s, {}) && Handling(s)
    ensures Ready(CancelOne(s, id), {})
  {
    if id in s.canceller {
      RequestReady(s, id);
      CallReady(Requesting(s, id), {});
    }
  }

  lemma CallbackReady(s: State)
    requires Ready(s, {}) && s.callbacks != []
    ensures Ready(RunCallback(s), {})
  {
    CallbackKept(s);
    CompletionReady(s, RunCallback(s), {}, s.callbacks[0].op, s.callbacks[0].id);
  }

  lemma ReadyKept(s: State, p: Prim)
    requires Ready(s, {}) && Enabled(s, p)
    ensures Ready(Apply(s, p), {})
  {
    match p
    case Firing(Completed(op, outcome)) => CompletedReady(s, {}, op, outcome);
    case Firing(Started(op, outcome)) => StartedReady(s, {}, op, outcome);
    case CallingBack => CallbackReady(s);
    case Starting(id, role) => StartReady(s, id, role);
    case Listening(id, child) => ListenReady(s, id, child);
    case Responding(id, outcome, discard) => RespondReady(s, id, outcome, discard);
    case Cancelling(id) => CancelReady(s, id);
    case Misc(t) => FrameReady(s, t, {});
    case _ =>
      PlainSameTable(s, p);
      FrameReady(s, Apply(s, p), {});
  }

  lemma ReadyStable()
    ensures Stable(s => Ready(s, {}))
  {
    var inv := s => Ready(s, {});
    forall s, p ensures Kept(inv, s, p) {
      if inv(s) && Enabled(s, p) {
        ReadyKept(s, p);
      }
    }
  }

  // ---------------------------------------------------------------------------------------------
  // The theorems
  // ---------------------------------------------------------------------------------------------

  lemma AlwaysReady(l: Launch, es: seq<Event>)
    ensures Ready(After(l, es), {})
  {
    ReadyStable();
    assert Ready(Execute(l), {});
    RunKeeps(s => Ready(s, {}), Execute(l), es);
  }

  /** In every run in which the worker reuses no id, every running operation that can be cancelled, has not
      been asked to and is not a timer without a timer id has its own canceller registered under its id. */
  lemma RunningIsReachable(l: Launch, es: seq<Event>, op: Op)
    requires Settlement.DistinctIds(After(l, es).log.accepted)
    ensures Reachable(After(l, es), op)
  {
    AlwaysReady(l, es);
  }

  /** Whatever ids the worker reuses, a Cancel asks for an operation exactly when the canceller registered under
      the id it names is that operation's, and not that of a timer without a timer id. */
  lemma CancelAsksExactly(s: State, id: Id, op: Op)
    ensures Requested(CancelOne(s, id).log.requested, op) <==>
              Requested(s.log.requested, op) || (id in s.canceller && s.canceller[id] == Cancellable(op, true))
  {
    if id in s.canceller {
      RequestedGrows(s, id, op);
    }
  }

  /** So a Cancel that names a running operation, not asked before, asks the environment to cancel it, exactly
      when it is not a timer without a timer id; for such a timer it calls nothing. */
  lemma CancelReaches(s: State, op: Op)
    requires Ready(s, {}) && Handling(s) && Settlement.DistinctIds(s.log.accepted)
    requires op in s.world.live && op < |s.log.accepted| && HasCanceller(s.log.accepted[op].role)
    requires !Requested(s.log.requested, op)
    ensures var r := CancelOne(s, s.log.accepted[op].id);
            && (Requested(r.log.requested, op) <==> op !in s.log.inert)
            && (op in s.log.inert ==> r.world == s.world && r.out == s.out)
  {
    var id := s.log.accepted[op].id;
    assert Reachable(s, op);
    if id in s.canceller {
      RequestedGrows(s, id, op);
      assert EntrySound(s, id, s.canceller[id].op);
      assert s.canceller[id].op == op;
    }
  }

  /** In every run without reused ids, a running operation that can be cancelled, and is not a timer without a
      timer id, has been asked to cancel if and only if its canceller is gone from the table. */
  lemma AskedOrRegistered(l: Launch, es: seq<Event>, op: Op)
    requires var s := After(l, es);
             && Settlement.DistinctIds(s.log.accepted) && op in s.world.live && op !in s.log.inert
             && op < |s.log.accepted| && HasCanceller(s.log.accepted[op].role)
    ensures var s := After(l, es);
            var id := s.log.accepted[op].id;
            Requested(s.log.requested, op) <==> !(id in s.canceller && s.canceller[id].op == op)
  {
    AlwaysReady(l, es);
    var s := After(l, es);
    var id := s.log.accepted[op].id;
    assert Reachable(s, op);
    if id in s.canceller {
      assert EntrySound(s, id, s.canceller[id].op);
    }
  }

  /** Requests are never withdrawn, and what has completed stays completed. */
  lemma CancelOneGrows(s: State, id: Id, op: Op)
    ensures Requested(s.log.requested, op) ==> Requested(CancelOne(s, id).log.requested, op)
    ensures op in CancelOne(s, id).world.live ==> op in s.world.live
  {
    if id in s.canceller {
      RequestedGrows(s, id, op);
      FiredIsGone(Popped(Requesting(s, id)), Answered(s).fires, op);
    }
  }

  /** The operation has been asked to cancel, or has completed. */
  predicate Over(s: State, op: Op) { Requested(s.log.requested, op) || op !in s.world.live }

  lemma {:induction false} OverStays(s: State, ids: seq<Id>, op: Op)
    requires Over(s, op)
    ensures Over(CancelAll(s, ids), op)
    decreases |ids|
  {
    if ids != [] {
      CancelOneGrows(s, ids[0], op);
      OverStays(CancelOne(s, ids[0]), ids[1..], op);
    }
  }

  /** A whole Cancel command, whatever the environment does while it is handled: once it has gone through its
      ids, every operation it names has been asked to cancel, or has completed before its turn came. */
  lemma {:induction false} CancelAllReaches(s: State, ids: seq<Id>, op: Op)
    requires Ready(s, {}) && Handling(s) && Settlement.DistinctIds(s.log.accepted)
    requires Wants(s, op) && s.log.accepted[op].id in ids
    ensures Over(CancelAll(s, ids), op)
    decreases |ids|
  {
    var s1 := CancelOne(s, ids[0]);
    if ids[0] == s.log.accepted[op].id {
      CancelReaches(s, op);
      OverStays(s1, ids[1..], op);
    } else if Over(s1, op) {
      OverStays(s1, ids[1..], op);
    } else {
      CancelReady(s, ids[0]);
      CancelAllReaches(s1, ids[1..], op);
    }
  }

  /** With a reused id it fails twice over: the second operation's canceller replaces the first's, so that a
      Cancel never reaches the first; and the first one's completion discards the second's. */
  lemma ReusedIdHidesOperation(s: State, id: Id, outcome: Outcome)
    requires Ready(s, {}) && Handling(s) && s.world.answers == []
    ensures var a, b := |s.log.accepted|, |s.log.accepted| + 1;
            var s2 := StartOp(StartOp(s, id, Activity), id, Activity);
            && Wants(s2, a) && Wants(s2, b)
            && Wants(CancelOne(s2, id), a) && id !in CancelOne(s2, id).canceller
            && Wants(Fire(s2, Completed(a, outcome)), b) && id !in Fire(s2, Completed(a, outcome)).canceller
  {
    StartReady(s, id, Activity);
    var s1 := StartOp(s, id, Activity);
    StartReady(s1, id, Activity);
    var s2 := StartOp(s1, id, Activity);
    NotAsked(s, |s.log.accepted|);
    NotAsked(s, |s.log.accepted| + 1);
    assert s2.log.requested == s.log.requested;
    assert s2.canceller[id] == Cancellable(|s.log.accepted| + 1, true);
    RequestedGrows(s2, id, |s.log.accepted|);
  }

  lemma NotAsked(s: State, op: Op)
    requires Sound(s) && op >= |s.log.accepted|
    ensures !Requested(s.log.requested, op)
  {
  }
}
