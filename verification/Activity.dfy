/** Activity executions and the table heartbeats are looked up in. */
module Activities {
  import opened Protocol
  import opened Codec
  import opened Pools
  import opened WorkflowModel

  type Token = string

  /** The context of a running execution, as far as the table is concerned. */
  type Ctx = nat

  /** What the environment knows of an execution. */
  datatype Job = Job(token: Token, ctx: Ctx, name: string, taskQueue: string, args: Payloads, header: Header)

  /** How an execution ends. `Crashed` is a nil pointer panic. */
  datatype Ending = Returned(payloads: Payloads) | Pending | Errored | Crashed

  const DO_NOT_COMPLETE: string := "doNotCompleteOnReturn"

  /** The details of an earlier heartbeat are appended to the arguments; there has to be something to append
      them to. */
  predicate CanAppend(job: Job, details: seq<string>) { details == [] || job.args.Some? }

  function InvokeMessage(job: Job, details: seq<string>, id: Id): Message
    requires CanAppend(job, details)
  {
    Message(id, Some(InvokeActivity(job.name, |details|)), None,
            if details == [] then job.args else Some(job.args.value + details), job.header)
  }

  function ExchangeContext(job: Job): Context { Context(job.taskQueue, "", false, 0, "") }

  /** The arguments come first, then the details, and the command says how many of them are details. */
  lemma InvokeCarries(job: Job, details: seq<string>, id: Id)
    requires CanAppend(job, details)
    ensures var m := InvokeMessage(job, details, id);
            && m.id == id && m.command == Some(InvokeActivity(job.name, |details|)) && m.header == job.header
            && m.failure.None? && (details == [] ==> m.payloads == job.args)
            && (details != [] ==>
                  && m.payloads.Some? && |m.payloads.value| == |job.args.value| + |details|
                  && m.payloads.value[..|job.args.value|] == job.args.value
                  && m.payloads.value[|job.args.value|..] == details)
  {
  }

  /** The worker's reply decodes to exactly the message `m`. */
  predicate Replies(f: Formats, reply: Reply, m: Message)
  {
    reply.Response? && Decoded(f, reply.body) == ([m], true)
  }

  /** The ending says what the worker returned: the payloads of its one message; "pending" if that message fails
      with the agreed text; an error if it fails otherwise, or if there is no such message. */
  ghost predicate Tells(f: Formats, reply: Reply, r: Ending)
  {
    match r
    case Returned(payloads) => exists m :: Replies(f, reply, m) && m.failure.None? && m.payloads == payloads
    case Pending => exists m :: Replies(f, reply, m) && m.failure == Some("doNotCompleteOnReturn")
    case Errored =>
      forall m :: Replies(f, reply, m) ==> m.failure.Some? && m.failure != Some("doNotCompleteOnReturn")
    case Crashed => false
  }

  lemma ClassifyTells(f: Formats, reply: Reply)
    ensures Tells(f, reply, Classify(f, reply))
  {
    if reply.Response? {
      var (ms, ok) := Decoded(f, reply.body);
      if ok && |ms| == 1 {
        assert ms == [ms[0]];
        assert Replies(f, reply, ms[0]);
      }
    }
  }

  /** What is made of the worker's reply: exactly one message, whose failure may mean "pending". */
  function Classify(f: Formats, reply: Reply): Ending
  {
    match Batch(f, reply)
    case None => Errored
    case Some(batch) =>
      if |batch| != 1 then Errored
      else if batch[0].failure.None? then Returned(batch[0].payloads)
      else if batch[0].failure == Some(DO_NOT_COMPLETE) then Pending
      else Errored
  }

  /** The invocation cannot be encoded. */
  predicate Unsendable(f: Formats, job: Job, details: seq<string>, id: Id)
    requires CanAppend(job, details)
  {
    Encoded(f, ExchangeContext(job), [InvokeMessage(job, details, id)]).None?
  }

  class Activity {
    const formats: Formats
    const pool: PayloadPool
    var running: map<Token, Ctx>
    var seqId: nat

    constructor (formats: Formats, pool: PayloadPool)
      ensures running == map[] && seqId == 0 && this.pool == pool && this.formats == formats
    {
      this.formats, this.pool, running, seqId := formats, pool, map[], 0;
    }

    /** A heartbeat finds the context stored under its token. */
    method GetActivityContext(token: Token) returns (ctx: Option<Ctx>)
      ensures ctx == if token in running then Some(running[token]) else None
    {
      ctx := if token in running then Some(running[token]) else None;
    }

    /** One execution from beginning to end. If the details of an earlier heartbeat cannot be read it leaves
        before it has stored anything. The entry is stored before the exchange and deleted after it, except
        when there are details but no arguments to append them to, or when encoding fails: these exits leave
        it behind. The payload is returned on every path. */
    method Execute(job: Job, details: Option<seq<string>>, reply: Reply) returns (r: Ending)
      requires pool.Valid()
      modifies this, pool, pool.free
      ensures pool.Valid() && old(pool.free) <= pool.free
      ensures forall p :: p in pool.free ==> p in old(pool.free) || fresh(p)
      ensures details.None? ==> r == Errored && running == old(running) && seqId == old(seqId)
      ensures details.Some? ==> seqId == Next(old(seqId))
      ensures details.Some? && !CanAppend(job, details.value) ==>
                r == Crashed && running == old(running)[job.token := job.ctx]
      ensures details.Some? && CanAppend(job, details.value) ==>
                if Unsendable(formats, job, details.value, seqId)
                then r == Errored && running == old(running)[job.token := job.ctx]
                else Tells(formats, reply, r) && running == old(running) - {job.token}
    {
      if details.None? {
        return Errored;
      }
      running := running[job.token := job.ctx];
      seqId := Next(seqId);
      if details.value != [] && job.args.None? {
        return Crashed;
      }
      var pl := pool.Get();
      r := Exchange(job, InvokeMessage(job, details.value, seqId), reply, pl);
      ClassifyTells(formats, reply);
      pool.Put(pl);
    }

    method Exchange(job: Job, msg: Message, reply: Reply, pl: Payload) returns (r: Ending)
      modifies this`running, pl
      ensures if Encoded(formats, ExchangeContext(job), [msg]).None? then r == Errored && running == old(running)
              else r == Classify(formats, reply) && running == old(running) - {job.token}
                   && pl.body == Encoded(formats, ExchangeContext(job), [msg]).value
    {
      var encoded := Encode(formats, ExchangeContext(job), pl, [msg]);
      if !encoded {
        return Errored;
      }
      if reply.ExecFailed? {
        running := running - {job.token};
        return Errored;
      }
      running := running - {job.token};
      if reply.WorkerFailed? {
        return Errored;
      }
      if reply.Streaming? {
        return Errored;
      }
      if reply.NoResponse? {
        return Errored;
      }
      var out, decoded := Decode(formats, reply.body);
      if !decoded {
        return Errored;
      }
      if |out| != 1 {
        return Errored;
      }
      if out[0].failure.Some? {
        if out[0].failure.value == DO_NOT_COMPLETE {
          return Pending;
        }
        return Errored;
      }
      return Returned(out[0].payloads);
    }
  }

  // ---------------------------------------------------------------------------------------------
  // Any interleaving
  // ---------------------------------------------------------------------------------------------

  datatype Phase =
    | Waiting      // before Store
    | Active       // between Store and Delete
    | Abandoned    // left without Delete: encoding failed, or no arguments to append to
    | Finished     // after Delete, or left before Store

  /** Executions in progress, identified by their contexts, over the shared table. */
  datatype Table = Table(running: map<Token, Ctx>, phases: map<Ctx, Phase>)

  datatype Action =
    | Storing(e: Ctx)
    | Refusing(e: Ctx)    // heartbeat details could not be read
    | Abandoning(e: Ctx)
    | Deleting(e: Ctx)    // the exchange is over, with or without an error

  function PhaseOf(t: Table, e: Ctx): Phase { if e in t.phases then t.phases[e] else Waiting }

  function Act(t: Table, tokens: map<Ctx, Token>, a: Action): Table
  {
    if a.e !in tokens then t
    else
      var token := tokens[a.e];
      match a
      case Storing(e) =>
        if PhaseOf(t, e) != Waiting then t
        else Table(t.running[token := e], t.phases[e := Active])
      case Refusing(e) => if PhaseOf(t, e) != Waiting then t else t.(phases := t.phases[e := Finished])
      case Abandoning(e) => if PhaseOf(t, e) != Active then t else t.(phases := t.phases[e := Abandoned])
      case Deleting(e) =>
        if PhaseOf(t, e) != Active then t else Table(t.running - {token}, t.phases[e := Finished])
  }

  function Acts(tokens: map<Ctx, Token>, actions: seq<Action>): Table
  {
    if actions == [] then Table(map[], map[])
    else Act(Acts(tokens, actions[..|actions| - 1]), tokens, actions[|actions| - 1])
  }

  predicate DistinctTokens(tokens: map<Ctx, Token>)
  {
    forall e, e' :: e in tokens && e' in tokens && e != e' ==> tokens[e] != tokens[e']
  }

  predicate Entered(p: Phase) { p.Active? || p.Abandoned? }

  predicate TableSound(t: Table, tokens: map<Ctx, Token>)
  {
    && (forall e :: e in tokens && Entered(PhaseOf(t, e)) ==> tokens[e] in t.running && t.running[tokens[e]] == e)
    && (forall k :: k in t.running ==>
          t.running[k] in tokens && tokens[t.running[k]] == k && Entered(PhaseOf(t, t.running[k])))
  }

  lemma ActKept(t: Table, tokens: map<Ctx, Token>, a: Action)
    requires DistinctTokens(tokens) && TableSound(t, tokens)
    ensures TableSound(Act(t, tokens, a), tokens)
  {
  }

  /** A heartbeat on the token of `e` succeeds exactly while `e` is between its own Store and Delete, or has
      left without Delete, and it finds the context of `e`. */
  predicate Found(t: Table, tokens: map<Ctx, Token>, e: Ctx)
    requires e in tokens
  {
    && (tokens[e] in t.running <==> Entered(PhaseOf(t, e)))
    && (tokens[e] in t.running ==> t.running[tokens[e]] == e)
  }

  lemma {:induction false} AlwaysSound(tokens: map<Ctx, Token>, actions: seq<Action>)
    requires DistinctTokens(tokens)
    ensures TableSound(Acts(tokens, actions), tokens)
  {
    if actions != [] {
      AlwaysSound(tokens, actions[..|actions| - 1]);
      ActKept(Acts(tokens, actions[..|actions| - 1]), tokens, actions[|actions| - 1]);
    }
  }

  /** With a shared token heartbeats fail: the first execution to finish removes the other's entry. */
  lemma SharedTokenLosesEntry(tokens: map<Ctx, Token>, a: Ctx, b: Ctx)
    requires a in tokens && b in tokens && a != b && tokens[a] == tokens[b]
    ensures var t := Acts(tokens, [Storing(a), Storing(b), Deleting(a)]);
            PhaseOf(t, b) == Active && tokens[b] !in t.running
  {
    var all := [Storing(a), Storing(b), Deleting(a)];
    assert all[..2] == [Storing(a), Storing(b)] && all[..2][..1] == [Storing(a)] && [Storing(a)][..0] == [];
    var t1 := Act(Table(map[], map[]), tokens, Storing(a));
    assert Acts(tokens, [Storing(a)]) == t1;
    var t2 := Act(t1, tokens, Storing(b));
    assert Acts(tokens, all[..2]) == t2;
    assert Acts(tokens, all) == Act(t2, tokens, Deleting(a));
  }

  /** Heartbeats find their own executions in every interleaving if and only if the task tokens are distinct;
      then no execution removes or replaces another's entry. */
  lemma HeartbeatFindsItsExecution(tokens: map<Ctx, Token>)
    ensures (forall actions, e | e in tokens :: Found(Acts(tokens, actions), tokens, e)) <==> DistinctTokens(tokens)
  {
    if DistinctTokens(tokens) {
      forall actions, e | e in tokens ensures Found(Acts(tokens, actions), tokens, e) {
        AlwaysSound(tokens, actions);
      }
    } else {
      var a, b :| a in tokens && b in tokens && a != b && tokens[a] == tokens[b];
      SharedTokenLosesEntry(tokens, a, b);
      assert !Found(Acts(tokens, [Storing(a), Storing(b), Deleting(a)]), tokens, b);
    }
  }
}
