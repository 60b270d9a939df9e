/** Command ids drawn from the one counter that all workflows share. */
module CommandIds {
  import opened Protocol
  import opened WorkflowModel
  import opened WorkflowInduction
  import opened Ordering

  /** The shared counter, the queue of every workflow, and every id drawn so far. */
  datatype Fleet = Fleet(counter: nat, queues: map<nat, seq<Message>>, drawn: seq<Id>)

  /** One atomic operation on the queue of workflow `w`. The counter is bumped inside the queue's lock. */
  datatype Action =
    | PushingCommand(w: nat, command: Command, payloads: Payloads, header: Header)
    | PushingAnswer(w: nat, id: Id, outcome: Outcome)
    | Allocating(w: nat)
    | Flushing(w: nat)

  function Queue(f: Fleet, w: nat): seq<Message> { if w in f.queues then f.queues[w] else [] }

  function Act(f: Fleet, a: Action): Fleet
  {
    match a
    case PushingCommand(w, command, payloads, header) =>
      var id := Next(f.counter);
      Fleet(id, f.queues[w := Queue(f, w) + [Message(id, Some(command), None, payloads, header)]], f.drawn + [id])
    case PushingAnswer(w, id, outcome) =>
      f.(queues := f.queues[w := Queue(f, w) + [AnswerMessage(id, outcome)]])
    case Allocating(_) => Fleet(Next(f.counter), f.queues, f.drawn + [Next(f.counter)])
    case Flushing(w) => f.(queues := f.queues[w := []])
  }

  function Acts(actions: seq<Action>): Fleet
  {
    if actions == [] then Fleet(0, map[], []) else Act(Acts(actions[..|actions| - 1]), actions[|actions| - 1])
  }

  /** Ids are drawn in order, wrapping after 2^64 of them. */
  predicate DrawnInOrder(f: Fleet)
  {
    && f.counter == |f.drawn| % TWO_64
    && forall i :: 0 <= i < |f.drawn| ==> f.drawn[i] == (i + 1) % TWO_64
  }

  lemma {:induction false} AlwaysInOrder(actions: seq<Action>)
    ensures DrawnInOrder(Acts(actions))
  {
    if actions != [] {
      AlwaysInOrder(actions[..|actions| - 1]);
      NextAfter(|Acts(actions[..|actions| - 1]).drawn|);
    }
  }

  predicate Fresh(ids: seq<Id>)
  {
    && (forall i, j :: 0 <= i < j < |ids| ==> ids[i] != ids[j])
    && (forall i :: 0 <= i < |ids| ==> ids[i] != 0)
  }

  /** Under every interleaving of all workflows, the ids drawn are pairwise distinct and never 0, the id of
      the worker-info exchange, exactly as long as fewer than 2^64 have been drawn. */
  lemma IdsAreFresh(actions: seq<Action>)
    ensures Fresh(Acts(actions).drawn) <==> |Acts(actions).drawn| < TWO_64
  {
    AlwaysInOrder(actions);
    var ids := Acts(actions).drawn;
    if |ids| < TWO_64 {
      forall i | 0 <= i < |ids| ensures ids[i] == i + 1 {
        assert ids[i] == (i + 1) % TWO_64;
      }
    } else {
      assert ids[TWO_64 - 1] == 0;
    }
  }

  /** The commands of a queue carry increasing ids, all of them drawn already. */
  predicate Increasing(q: seq<Message>, bound: nat)
  {
    && (forall i :: 0 <= i < |q| && q[i].IsCommand() ==> 1 <= q[i].id <= bound)
    && (forall i, j :: 0 <= i < j < |q| && q[i].IsCommand() && q[j].IsCommand() ==> q[i].id < q[j].id)
  }

  lemma DrawnOnlyGrows(f: Fleet, a: Action)
    ensures |f.drawn| <= |Act(f, a).drawn|
  {
  }

  lemma ActIncreases(f: Fleet, a: Action, w: nat)
    requires Increasing(Queue(f, w), |f.drawn|) && f.counter == |f.drawn| && |Act(f, a).drawn| < TWO_64
    ensures Increasing(Queue(Act(f, a), w), |Act(f, a).drawn|)
  {
  }

  /** In every interleaving, before the counter wraps, each queue holds its commands in the order of their
      ids, however answers are mixed in. */
  lemma {:induction false} QueuesIncrease(actions: seq<Action>, w: nat)
    requires |Acts(actions).drawn| < TWO_64
    ensures Increasing(Queue(Acts(actions), w), |Acts(actions).drawn|)
  {
    if actions != [] {
      var k := |actions| - 1;
      var f := Acts(actions[..k]);
      DrawnOnlyGrows(f, actions[k]);
      QueuesIncrease(actions[..k], w);
      AlwaysInOrder(actions[..k]);
      ActIncreases(f, actions[k], w);
    }
  }

  // ---------------------------------------------------------------------------------------------
  // The ids of a run
  // ---------------------------------------------------------------------------------------------

  /** Before the counter wraps, the commands of the run carry increasing ids: all ever pushed, and therefore
      those in the queue. */
  predicate InOrder(s: State)
  {
    s.counter < TWO_64 ==> Increasing(Bodies(s.out.sent), s.counter) && Increasing(s.out.queue, s.counter)
  }

  lemma IncreasingSnoc(q: seq<Message>, m: Message, bound: nat)
    requires Increasing(q, bound) && (m.IsCommand() ==> m.id == bound + 1)
    ensures Increasing(q + [m], bound + 1) && (!m.IsCommand() ==> Increasing(q + [m], bound))
  {
  }

  lemma SendInOrder(s: State, command: Command, payloads: Payloads, header: Header)
    requires InOrder(s)
    ensures InOrder(Send(s, command, payloads, header))
  {
    var m := Message(Next(s.counter), Some(command), None, payloads, header);
    assert Bodies(s.out.sent + [Sent(m, None)]) == Bodies(s.out.sent) + [m];
    if s.counter + 1 < TWO_64 {
      IncreasingSnoc(Bodies(s.out.sent), m, s.counter);
      IncreasingSnoc(s.out.queue, m, s.counter);
    }
  }

  lemma PushedInOrder(s: State, r: State)
    requires InOrder(s) && Pushed(s, r)
    ensures InOrder(r)
  {
    assert forall i :: 0 <= i < |r.out.sent| ==> Bodies(r.out.sent)[i] == r.out.sent[i].msg;
    assert forall i :: 0 <= i < |s.out.sent| ==> Bodies(s.out.sent)[i] == r.out.sent[i].msg;
  }

  lemma InOrderStable()
    ensures Stable(InOrder)
  {
    forall s, p ensures Kept(InOrder, s, p) {
      if InOrder(s) && Enabled(s, p) {
        if Pushes(p) {
          StepPushed(s, p);
          PushedInOrder(s, Apply(s, p));
        } else if p.Sending? {
          SendInOrder(s, p.command, p.payloads, p.header);
        }
      }
    }
  }

  /** In every run, as long as fewer than 2^64 ids have been drawn by it and the workflows beside it, the
      commands pushed carry strictly increasing ids that are never 0, whatever others draw in between. */
  lemma RunIdsIncrease(l: Launch, es: seq<Event>)
    requires After(l, es).counter < TWO_64
    ensures var s := After(l, es);
            Increasing(Bodies(s.out.sent), s.counter) && Increasing(s.out.queue, s.counter)
  {
    InOrderStable();
    SendInOrder(Blank(l.run, l.counter), Start(l).command.value, Start(l).payloads, l.run.header);
    RunKeeps(InOrder, Execute(l), es);
  }
}
