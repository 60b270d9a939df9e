/** Messages sent on their own: what is sent, and what is made of what comes back. */
module Requests {
  import opened Protocol
  import opened Codec
  import opened WorkflowModel

  /** Sent now and on its own, `out` is encoded, and the reply decodes to exactly the message `m`. */
  predicate Yields(s: State, out: Message, m: Message)
  {
    && Encoded(s.run.formats, s.world.ctx, [out]).Some? && Replied(s).Response?
    && Decoded(s.run.formats, Replied(s).body) == ([m], true)
  }

  /** The result says what the worker returned: the payloads of its one message, the failure in it, or that there
      was no such message. */
  ghost predicate Reports(s: State, out: Message, r: Result)
  {
    match r
    case Value(payloads) => exists m :: Yields(s, out, m) && m.failure.None? && m.payloads == payloads
    case Failure(e) => exists m :: Yields(s, out, m) && m.failure == Some(e)
    case ExchangeError => forall m :: !Yields(s, out, m)
  }

  /** There is only one such result. */
  lemma ReportsOnce(s: State, out: Message, r: Result, r': Result)
    requires Reports(s, out, r) && Reports(s, out, r')
    ensures r == r'
  {
  }

  lemma AloneYields(s: State, out: Message, m: Message)
    ensures SendAlone(s, out).1 == Some(m) <==> Yields(s, out, m)
  {
    if Replied(s).Response? {
      var ms := Decoded(s.run.formats, Replied(s).body).0;
      assert |ms| == 1 ==> ms == [ms[0]];
    }
  }

  lemma AloneReports(s: State, out: Message)
    ensures Reports(s, out, ResultOf(SendAlone(s, out).1))
  {
    var r := SendAlone(s, out).1;
    if r.Some? {
      AloneYields(s, out, r.value);
    } else {
      forall m ensures !Yields(s, out, m) {
        AloneYields(s, out, m);
      }
    }
  }

  /** Whether anything is handed over depends on encoding alone. */
  function Sends(s: State, out: Message): seq<Message>
  {
    if Encoded(s.run.formats, s.world.ctx, [out]).Some? then [out] else []
  }

  /** What a command sent on its own comes to: it carries the next id, the payloads and the header it is given, it
      is what is sent, and the result is the worker's. */
  lemma CommandReports(s: State, command: Command, payloads: Payloads, header: Header)
    ensures var out := Message(Next(s.counter), Some(command), None, payloads, header);
            var (r, answer) := RunCommand(s, command, payloads, header);
            && r.asked == s.asked + Sends(s, out) && Reports(s, out, ResultOf(answer))
            && r.counter == s.counter + 1
  {
    var out := Message(Next(s.counter), Some(command), None, payloads, header);
    var s1 := s.(counter := s.counter + 1);
    AloneReports(s1, out);
    SameReport(s, s1, out, ResultOf(SendAlone(s1, out).1));
  }

  /** The counter has no influence on an exchange. */
  lemma SameReport(s: State, s1: State, out: Message, r: Result)
    requires s1.run == s.run && s1.world == s.world && Reports(s1, out, r)
    ensures Reports(s, out, r)
  {
    assert forall m :: Yields(s, out, m) <==> Yields(s1, out, m);
  }

  /** A query sends InvokeQuery with its name and arguments, and returns what the worker made of it. */
  lemma QueryReports(s: State, name: string, payloads: Payloads, header: Header)
    ensures var out := Message(Next(s.counter), Some(InvokeQuery(s.run.runId, name)), None, payloads, header);
            var (r, result) := Query(s, name, payloads, header);
            r.asked == s.asked + Sends(s, out) && Reports(s, out, result)
  {
    CommandReports(s, InvokeQuery(s.run.runId, name), payloads, header);
  }

  /** A stack trace sends GetStackTrace with the header of the run. */
  lemma TraceSends(s: State, replies: seq<Reply>, ctx: Context)
    ensures var t := WithOracles(s, [], replies, ctx);
            var out := Message(Next(s.counter), Some(GetStackTrace(s.run.runId)), None, None, s.run.header);
            Step(s, Traced(replies, ctx)).asked == s.asked + Sends(t, out)
  {
    CommandReports(WithOracles(s, [], replies, ctx), GetStackTrace(s.run.runId), None, s.run.header);
  }

  /** The last thing Close sends is DestroyWorkflow, after whatever the updates it drains send. */
  lemma CloseSends(s: State)
    ensures var t := RunUpdates(s.(updates := s.updates.(parked := [])), s.updates.parked);
            var out := Message(Next(t.counter), Some(DestroyWorkflow(s.run.runId)), None, None, s.run.header);
            Close(s).asked == t.asked + Sends(t, out)
  {
    var t := RunUpdates(s.(updates := s.updates.(parked := [])), s.updates.parked);
    CommandReports(t, DestroyWorkflow(s.run.runId), None, s.run.header);
  }
}
