/** What reaches the worker as bytes, and what is made of the bytes it returns. */
module Delivery {
  import opened Protocol
  import opened Codec
  import opened WorkflowModel
  import opened WorkflowInduction
  import opened Ordering

  // ---------------------------------------------------------------------------------------------
  // A single flush
  // ---------------------------------------------------------------------------------------------

  /** A flush of a non-empty queue succeeds exactly when every message can be packed and marshalled and the
      worker returns a readable body. Whatever else happens, at whatever stage, the queue and the pipeline are
      as they were; so the same messages will be sent again. On success the queue is empty, and the pipeline gains
      exactly the messages of the body returned. Whenever a body is sent, the other side decodes it to exactly
      the queue. */
  lemma FlushIsAllOrNothing(s: State)
    requires s.out.queue != []
    ensures var reply := Replied(s);
            Flush(s).1 == Continue <==>
              Sendable(s.run.formats, s.world.ctx, s.out.queue)
              && reply.Response? && Readable(s.run.formats, reply.body)
    ensures Flush(s).1 != Continue ==> Flush(s).0.out == s.out && Flush(s).0.input == s.input
    ensures Flush(s).1 == Continue ==>
              var r, n := Flush(s).0, |s.input.pipeline|;
              && r.out.queue == [] && n <= |r.input.pipeline| && r.input.pipeline[..n] == s.input.pipeline
              && Reads(s.run.formats, Replied(s).body, r.input.pipeline[n..])
    ensures Sendable(s.run.formats, s.world.ctx, s.out.queue) && Inverts(s.run.formats) && AllKnown(s.out.queue) ==>
              var handed := Flush(s).0.log.handed;
              handed != [] && Decoded(s.run.formats, handed[|handed| - 1].body) == (s.out.queue, true)
  {
    SentIsReceived(s.run.formats, s.world.ctx, s.out.queue);
    if Replied(s).Response? {
      DecodedReads(s.run.formats, Replied(s).body);
    }
    if Flush(s).1 == Continue {
      assert Flush(s).0.input.pipeline[|s.input.pipeline|..] == Batch(s.run.formats, Replied(s)).value;
    }
  }

  // ---------------------------------------------------------------------------------------------
  // Every body
  // ---------------------------------------------------------------------------------------------

  predicate Decodes(f: Formats, h: Handed) { Decoded(f, h.body) == (h.batch, true) }

  /** Each batch handed over was sent as a body that decodes to it, and the queue can be decoded too. */
  ghost predicate Delivers(s: State)
  {
    && AllKnown(s.out.queue)
    && (Inverts(s.run.formats) ==>
          forall i :: 0 <= i < |s.log.handed| ==> Decodes(s.run.formats, s.log.handed[i]))
  }

  lemma FlushDelivers(s: State)
    requires Delivers(s)
    ensures Delivers(Flush(s).0)
  {
    if s.out.queue != [] {
      FlushIsAllOrNothing(s);
      SentIsReceived(s.run.formats, s.world.ctx, s.out.queue);
    }
  }

  lemma DeliversKept(s: State, p: Prim)
    requires Delivers(s) && Enabled(s, p)
    ensures Delivers(Apply(s, p))
  {
    if p.Flushing? {
      FlushDelivers(s);
    } else if Pushes(p) {
      StepPushed(s, p);
    }
  }

  lemma DeliversStable()
    ensures Stable(Delivers)
  {
    forall s, p ensures Kept(Delivers, s, p) {
      if Delivers(s) && Enabled(s, p) {
        DeliversKept(s, p);
      }
    }
  }

  /** In every run, every body handed to the worker, acknowledged or not, decodes to the batch that was flushed:
      whatever the host queues is known to both name tables. */
  lemma BodiesDecode(l: Launch, es: seq<Event>)
    ensures Delivers(After(l, es))
  {
    DeliversStable();
    RunKeeps(Delivers, Execute(l), es);
  }

  lemma FormatsStay(l: Launch, es: seq<Event>)
    ensures After(l, es).run == l.run
  {
    var inv := (s: State) => s.run == l.run;
    forall s, p ensures Kept(inv, s, p) {
      if inv(s) && Enabled(s, p) && Pushes(p) {
        StepPushed(s, p);
      }
    }
    RunKeeps(inv, Execute(l), es);
  }

  // ---------------------------------------------------------------------------------------------
  // What is acknowledged, and what is sent again
  // ---------------------------------------------------------------------------------------------

  function Acknowledged(hs: seq<Handed>): seq<Handed>
  {
    if hs == [] then []
    else
      var h := hs[|hs| - 1];
      Acknowledged(hs[..|hs| - 1]) + (if h.acknowledged then [h] else [])
  }

  lemma AcknowledgedSnoc(hs: seq<Handed>, h: Handed)
    ensures Acknowledged(hs + [h]) == Acknowledged(hs) + (if h.acknowledged then [h] else [])
  {
    assert (hs + [h])[..|hs|] == hs;
  }

  function Batches(hs: seq<Handed>): seq<seq<Message>>
  {
    seq(|hs|, i requires 0 <= i < |hs| => hs[i].batch)
  }

  /** A batch that was not acknowledged is a prefix of the next one handed over, or of the queue if there is none
      yet. */
  predicate SentAgain(hs: seq<Handed>, queue: seq<Message>, i: nat)
  {
    i < |hs| && !hs[i].acknowledged ==> hs[i].batch <= if i + 1 < |hs| then hs[i + 1].batch else queue
  }

  predicate Nonempty(hs: seq<Handed>) { forall i :: 0 <= i < |hs| ==> hs[i].batch != [] }

  /** The frames are the batches acknowledged; no empty batch is handed over; and until Close every batch that
      was not acknowledged is sent again. */
  ghost predicate Accounted(s: State)
  {
    && Batches(Acknowledged(s.log.handed)) == s.out.frames && Nonempty(s.log.handed)
    && (!s.closed ==> forall i: nat :: SentAgain(s.log.handed, s.out.queue, i))
  }

  lemma LongerQueue(hs: seq<Handed>, queue: seq<Message>, longer: seq<Message>, i: nat)
    requires SentAgain(hs, queue, i) && queue <= longer
    ensures SentAgain(hs, longer, i)
  {
  }

  /** Handing over the whole queue takes care of what had failed before. */
  lemma NextHanded(hs: seq<Handed>, h: Handed, rest: seq<Message>, i: nat)
    requires SentAgain(hs, h.batch, i) && (!h.acknowledged ==> rest == h.batch)
    ensures SentAgain(hs + [h], rest, i)
  {
  }

  /** What a flush that reached the worker adds to the account. */
  lemma FlushHands(s: State)
    requires s.out.queue != [] && Body(s).Some?
    ensures var ok := Batch(s.run.formats, Replied(s)).Some?;
            var r := Flush(s).0;
            && r.log.handed == s.log.handed + [Handed(s.out.queue, Body(s).value, ok)] && r.closed == s.closed
            && r.out.frames == s.out.frames + (if ok then [s.out.queue] else [])
            && r.out.queue == if ok then [] else s.out.queue
  {
  }

  lemma FramesAccounted(hs: seq<Handed>, h: Handed, frames: seq<seq<Message>>)
    requires Batches(Acknowledged(hs)) == frames
    ensures Batches(Acknowledged(hs + [h])) == frames + (if h.acknowledged then [h.batch] else [])
  {
    AcknowledgedSnoc(hs, h);
    assert Batches(Acknowledged(hs) + [h]) == Batches(Acknowledged(hs)) + [h.batch];
  }

  lemma FlushAccounted(s: State)
    requires Accounted(s)
    ensures Accounted(Flush(s).0)
  {
    if s.out.queue != [] && Body(s).Some? {
      var r := Flush(s).0;
      FlushHands(s);
      var h := r.log.handed[|s.log.handed|];
      FramesAccounted(s.log.handed, h, s.out.frames);
      if !s.closed {
        forall i: nat ensures SentAgain(r.log.handed, r.out.queue, i) {
          NextHanded(s.log.handed, h, r.out.queue, i);
        }
      }
    }
  }

  lemma GrownAccounted(s: State, r: State)
    requires Accounted(s) && s.out.queue <= r.out.queue
    requires r.closed == s.closed && r.out.frames == s.out.frames && r.log.handed == s.log.handed
    ensures Accounted(r)
  {
    if !s.closed {
      forall i: nat ensures SentAgain(r.log.handed, r.out.queue, i) {
        LongerQueue(s.log.handed, s.out.queue, r.out.queue, i);
      }
    }
  }

  lemma AccountedStable()
    ensures Stable(Accounted)
  {
    forall s, p ensures Kept(Accounted, s, p) {
      if Accounted(s) && Enabled(s, p) {
        if p.Flushing? {
          FlushAccounted(s);
        } else if Pushes(p) {
          StepPushed(s, p);
          GrownAccounted(s, Apply(s, p));
        } else if p.Sending? {
          GrownAccounted(s, Apply(s, p));
        }
      }
    }
  }

  /** In every run until Close a batch whose exchange failed after the hand-over is sent again: it is a prefix of
      the next batch handed over. The frames are exactly the batches acknowledged. */
  lemma FailedIsSentAgain(l: Launch, es: seq<Event>)
    ensures Accounted(After(l, es))
  {
    AccountedStable();
    RunKeeps(Accounted, Execute(l), es);
  }

  // ---------------------------------------------------------------------------------------------
  // What the worker decodes
  // ---------------------------------------------------------------------------------------------

  /** The messages the bodies of a sequence of hand-overs decode to. */
  function Received(f: Formats, hs: seq<Handed>): seq<Message>
  {
    if hs == [] then [] else Received(f, hs[..|hs| - 1]) + Decoded(f, hs[|hs| - 1].body).0
  }

  lemma {:induction false} ReceivedIsSent(f: Formats, hs: seq<Handed>)
    requires forall i :: 0 <= i < |hs| ==> Decodes(f, hs[i])
    ensures Received(f, hs) == Concat(Batches(hs))
  {
    if hs != [] {
      var k := |hs| - 1;
      ReceivedIsSent(f, hs[..k]);
      assert Batches(hs)[..k] == Batches(hs[..k]);
    }
  }

  lemma {:induction false} AcknowledgedDecode(f: Formats, hs: seq<Handed>)
    requires forall i :: 0 <= i < |hs| ==> Decodes(f, hs[i])
    ensures forall i :: 0 <= i < |Acknowledged(hs)| ==> Decodes(f, Acknowledged(hs)[i])
  {
    if hs != [] {
      AcknowledgedDecode(f, hs[..|hs| - 1]);
    }
  }

  /** In every run until Close, what the worker decodes from the bodies it has acknowledged, followed by what is
      still queued, is everything the host ever pushed, in order. */
  lemma WorkerReceivesPushes(l: Launch, es: seq<Event>)
    requires Inverts(l.run.formats)
    ensures var s := After(l, es);
            !s.closed ==>
              Received(l.run.formats, Acknowledged(s.log.handed)) + s.out.queue == Bodies(s.out.sent)
  {
    BodiesDecode(l, es);
    OutgoingOrder(l, es);
    FormatsStay(l, es);
    FailedIsSentAgain(l, es);
    AcknowledgedDecode(l.run.formats, After(l, es).log.handed);
    ReceivedIsSent(l.run.formats, Acknowledged(After(l, es).log.handed));
  }

  predicate AllAcknowledged(hs: seq<Handed>) { forall i :: 0 <= i < |hs| ==> hs[i].acknowledged }

  /** A failed hand-over makes what was handed over longer than what was acknowledged. */
  lemma {:induction false} HandedLength(hs: seq<Handed>)
    requires Nonempty(hs)
    ensures AllAcknowledged(hs) ==> Acknowledged(hs) == hs
    ensures |Concat(Batches(hs))| >= |Concat(Batches(Acknowledged(hs)))|
    ensures |Concat(Batches(hs))| == |Concat(Batches(Acknowledged(hs)))| ==> AllAcknowledged(hs)
  {
    if hs != [] {
      var k := |hs| - 1;
      HandedLength(hs[..k]);
      BatchesSnoc(hs[..k], hs[k]);
      assert hs == hs[..k] + [hs[k]];
      if hs[k].acknowledged {
        BatchesSnoc(Acknowledged(hs[..k]), hs[k]);
        assert Acknowledged(hs) == Acknowledged(hs[..k]) + [hs[k]];
      } else {
        assert Acknowledged(hs) == Acknowledged(hs[..k]);
      }
    }
  }

  lemma BatchesSnoc(hs: seq<Handed>, h: Handed)
    ensures Concat(Batches(hs + [h])) == Concat(Batches(hs)) + h.batch
  {
    assert Batches(hs + [h]) == Batches(hs) + [h.batch];
    ConcatSnoc(Batches(hs), h.batch);
  }

  /** In every run until Close, what the worker decodes from all the bodies it was handed, followed by the queue,
      is everything pushed, so that each message reaches it exactly once, if and only if no exchange failed
      after the hand-over. */
  lemma HandedOnce(l: Launch, es: seq<Event>)
    requires Inverts(l.run.formats) && !After(l, es).closed
    ensures var s := After(l, es);
            Received(l.run.formats, s.log.handed) + s.out.queue == Bodies(s.out.sent) <==> AllAcknowledged(s.log.handed)
  {
    var s := After(l, es);
    WorkerReceivesPushes(l, es);
    BodiesDecode(l, es);
    FormatsStay(l, es);
    FailedIsSentAgain(l, es);
    HandedLength(s.log.handed);
    ReceivedIsSent(l.run.formats, s.log.handed);
    AcknowledgedDecode(l.run.formats, s.log.handed);
    ReceivedIsSent(l.run.formats, Acknowledged(s.log.handed));
  }

  /** A run in which a message is handed over twice: the worker fails on the first batch, and the next task sends
      it again. */
  lemma StartHandedTwice(l: Launch, ctx: Context)
    requires Encoded(l.run.formats, ctx, [Start(l)]).Some?
    ensures var s := After(l, [TaskStarted([], [WorkerFailed], ctx), TaskStarted([], [Response("")], ctx)]);
            Batches(s.log.handed) == [[Start(l)], [Start(l)]] && s.out.frames == [[Start(l)]]
  {
    var first, second := [WorkerFailed], [Response("")];
    var s1 := WithOracles(Execute(l), [], first, ctx);
    StartFails(s1, Start(l));
    OneTask(l, [], first, ctx);
    StartSucceeds(WithOracles(Task(s1).0, [], second, ctx), Start(l));
    NextTask(l, TaskStarted([], first, ctx), second, ctx);
  }

  lemma NextTask(l: Launch, e: Event, replies: seq<Reply>, ctx: Context)
    ensures After(l, [e, TaskStarted([], replies, ctx)]) == Task(WithOracles(After(l, [e]), [], replies, ctx)).0
  {
    var es := [e, TaskStarted([], replies, ctx)];
    assert es[..1] == [e];
    assert After(l, es) == Step(After(l, es[..1]), es[1]);
  }

  lemma StartFails(s: State, m: Message)
    requires s.out.queue == [m] && s.callbacks == [] && s.world.replies == [WorkerFailed] && Body(s).Some?
    ensures var r := Task(s).0;
            && r.out == s.out && r.callbacks == [] && r.input == s.input && r.updates == s.updates && r.run == s.run
            && r.log.handed == s.log.handed + [Handed([m], Body(s).value, false)]
  {
    var s1 := SetLoop(s, true);
    assert RunCallbacks(s1) == s1 && Body(s1) == Body(s);
    assert Batch(s.run.formats, Replied(s1)).None?;
  }

  lemma StartSucceeds(s: State, m: Message)
    requires s.out.queue == [m] && s.callbacks == [] && s.world.replies == [Response("")] && Body(s).Some?
    requires s.input.pipeline == [] && s.updates.names == []
    ensures var r := Task(s).0;
            && r.out.frames == s.out.frames + [[m]]
            && r.log.handed == s.log.handed + [Handed([m], Body(s).value, true)]
  {
    var s1 := SetLoop(s, true);
    assert RunCallbacks(s1) == s1 && Body(s1) == Body(s);
    assert Batch(s.run.formats, Replied(s1)) == Some([]);
    var s2 := FirstFlush(s).0;
    assert s2.input.pipeline == [] && HandleUpdates(s2) == s2;
  }
}
