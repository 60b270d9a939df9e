/** The object pools: payloads handed to the worker pool, and frames the codec parses into. */
module Pools {
  import opened Protocol
  import opened Codec

  // ---------------------------------------------------------------------------------------------
  // Payloads, one caller at a time
  // ---------------------------------------------------------------------------------------------

  class PayloadPool {
    var free: set<Payload>

    /** Every pooled payload has been cleared. */
    ghost predicate Valid()
      reads this, free
    {
      forall p :: p in free ==> p.Blank()
    }

    constructor ()
      ensures Valid() && free == {}
    {
      free := {};
    }

    /** The pool decides which payload it hands out. */
    method Get() returns (p: Payload)
      requires Valid()
      modifies this
      ensures Valid() && p !in free && p.Blank()
      ensures if old(free) == {} then fresh(p) && free == {} else p in old(free) && free == old(free) - {p}
    {
      if free == {} {
        p := new Payload();
      } else {
        p :| p in free;
        free := free - {p};
      }
    }

    /** A payload is given back by whoever holds it, so it is not in the pool already. */
    method Put(p: Payload)
      requires Valid() && p !in free
      modifies this, p
      ensures Valid() && free == old(free) + {p}
    {
      p.codec := 0;
      p.context := "";
      p.body := "";
      free := free + {p};
    }
  }

  // ---------------------------------------------------------------------------------------------
  // Payloads, any interleaving
  // ---------------------------------------------------------------------------------------------

  type Ref = nat
  type Execution = nat

  datatype Content = Content(codec: int, context: Bytes, body: Bytes)

  const CLEARED: Content := Content(0, "", "")

  /** The shared pool, who holds which payload, and what is in every payload. */
  datatype Shared = Shared(pool: set<Ref>, held: map<Execution, Ref>, contents: map<Ref, Content>, minted: Ref)

  datatype Action =
    | Getting(e: Execution, wanted: Option<Ref>)  // a pooled payload if there is one the pool hands out
    | Writing(e: Execution, content: Content)
    | Leaving(e: Execution, givesBack: bool)      // an exit path, with or without putPld
    | Collecting(r: Ref)                          // the runtime may empty a pool at any time

  function Act(s: Shared, a: Action): Shared
  {
    match a
    case Getting(e, wanted) =>
      if e in s.held then s
      else if wanted.Some? && wanted.value in s.pool
      then s.(pool := s.pool - {wanted.value}, held := s.held[e := wanted.value])
      else s.(held := s.held[e := s.minted], contents := s.contents[s.minted := CLEARED],
              minted := s.minted + 1)
    case Writing(e, content) => if e in s.held then s.(contents := s.contents[s.held[e] := content]) else s
    case Leaving(e, givesBack) =>
      if e !in s.held then s
      else if !givesBack then s.(held := s.held - {e})
      else s.(pool := s.pool + {s.held[e]}, held := s.held - {e}, contents := s.contents[s.held[e] := CLEARED])
    case Collecting(r) => s.(pool := s.pool - {r})
  }

  function Acts(actions: seq<Action>): Shared
  {
    if actions == [] then Shared({}, map[], map[], 0) else Act(Acts(actions[..|actions| - 1]), actions[|actions| - 1])
  }

  predicate Exclusive(s: Shared)
  {
    && (forall r :: r in s.pool ==> r < s.minted && r in s.contents && s.contents[r] == CLEARED)
    && (forall e :: e in s.held ==> s.held[e] < s.minted && s.held[e] in s.contents && s.held[e] !in s.pool)
    && (forall e, e' :: e in s.held && e' in s.held && e != e' ==> s.held[e] != s.held[e'])
  }

  /** In every interleaving of executions, whatever their exit paths, a payload is held by one execution or
      pooled but never both, no two executions hold the same one, and pooled payloads are cleared. So a
      payload an execution gets is cleared, and nobody else writes to it while it is held. */
  lemma {:induction false} PayloadsAreExclusive(actions: seq<Action>)
    ensures Exclusive(Acts(actions))
  {
    if actions != [] {
      PayloadsAreExclusive(actions[..|actions| - 1]);
      ExclusiveKept(Acts(actions[..|actions| - 1]), actions[|actions| - 1]);
    }
  }

  lemma ExclusiveKept(s: Shared, a: Action)
    requires Exclusive(s)
    ensures Exclusive(Act(s, a))
  {
  }

  /** The content of a held payload is changed by its holder only. */
  lemma OnlyTheHolderWrites(actions: seq<Action>, a: Action, e: Execution)
    requires e in Acts(actions).held && e in Act(Acts(actions), a).held
    requires a.Writing? ==> a.e != e
    ensures var s, r := Acts(actions), Act(Acts(actions), a);
            r.held[e] == s.held[e] && r.held[e] in r.contents && s.held[e] in s.contents
            && r.contents[r.held[e]] == s.contents[s.held[e]]
  {
    PayloadsAreExclusive(actions);
    PayloadsAreExclusive(actions + [a]);
    assert (actions + [a])[..|actions|] == actions;
  }

  // ---------------------------------------------------------------------------------------------
  // Frames
  // ---------------------------------------------------------------------------------------------

  /** The payloads of a message, which the wire message and the parsed message share by pointer. */
  class Blob {
    var data: seq<string>

    constructor (data: seq<string>)
      ensures this.data == data
    {
      this.data := data;
    }
  }

  class WireMessage {
    var id: Id
    var payloads: Blob

    constructor (id: Id, payloads: Blob)
      ensures this.id == id && this.payloads == payloads
    {
      this.id, this.payloads := id, payloads;
    }
  }

  class ParsedMessage {
    var id: Id
    var payloads: Blob

    constructor (id: Id, payloads: Blob)
      ensures this.id == id && this.payloads == payloads
    {
      this.id, this.payloads := id, payloads;
    }
  }

  class PooledFrame {
    var messages: seq<WireMessage>

    constructor ()
      ensures messages == []
    {
      messages := [];
    }
  }

  /** A wire message in a body, and whether its command can be parsed. */
  datatype Part = Part(id: Id, data: seq<string>, parses: bool)

  /** What a list of parsed messages says. */
  ghost predicate Says(ms: seq<ParsedMessage>, parts: seq<Part>)
    reads ms, set m | m in ms :: m.payloads
  {
    |ms| == |parts| && forall i :: 0 <= i < |ms| ==> ms[i].id == parts[i].id && ms[i].payloads.data == parts[i].data
  }

  /** The parts before the first that does not parse. */
  function Legible(parts: seq<Part>): (prefix: seq<Part>)
    ensures prefix <= parts
  {
    if parts == [] || !parts[0].parses then [] else [parts[0]] + Legible(parts[1..])
  }

  lemma {:induction false} LegibleUpTo(parts: seq<Part>, n: nat)
    requires n <= |parts| && (forall i :: 0 <= i < n ==> parts[i].parses) && (n < |parts| ==> !parts[n].parses)
    ensures Legible(parts) == parts[..n]
  {
    if n > 0 {
      LegibleUpTo(parts[1..], n - 1);
      assert parts[..n] == [parts[0]] + parts[1..][..n - 1];
    }
  }

  class FrameCodec {
    var frames: set<PooledFrame>

    ghost predicate Valid()
      reads this, frames
    {
      forall f :: f in frames ==> f.messages == []
    }

    constructor ()
      ensures Valid() && frames == {}
    {
      frames := {};
    }

    method GetFrame() returns (frame: PooledFrame)
      requires Valid()
      modifies this
      ensures Valid() && frame !in frames && frame.messages == [] && frames <= old(frames)
      ensures frame in old(frames) || fresh(frame)
    {
      if frames == {} {
        frame := new PooledFrame();
      } else {
        frame :| frame in frames;
        frames := frames - {frame};
      }
    }

    method PutFrame(frame: PooledFrame)
      requires Valid() && frame !in frames
      modifies this, frame
      ensures Valid() && frames == old(frames) + {frame}
    {
      frame.messages := [];
      frames := frames + {frame};
    }

    /** Decode into a pooled frame, copy the pointers out, reset the frame and put it back, whether or not all
        of the body can be read. Only the codec and its frames are modified; the messages returned, and what
        they point to, are new. */
    method Decode(body: Option<seq<Part>>) returns (out: seq<ParsedMessage>, ok: bool)
      requires Valid()
      modifies this, frames
      ensures Valid() && Says(out, if body.None? then [] else Legible(body.value))
      ensures ok <==> body.Some? && Legible(body.value) == body.value
      ensures forall m :: m in out ==> fresh(m) && fresh(m.payloads)
      ensures forall f :: f in frames ==> f in old(frames) || fresh(f)
    {
      var frame := GetFrame();
      out, ok := [], false;
      if body.Some? {
        frame.messages := Unmarshal(body.value);
        out := ParseFrame(frame, body.value);
        ok := |out| == |body.value|;
        assert body.value[..|body.value|] == body.value;
      }
      PutFrame(frame);
    }

    method Unmarshal(parts: seq<Part>) returns (ms: seq<WireMessage>)
      ensures |ms| == |parts|
      ensures forall k :: 0 <= k < |ms| ==> fresh(ms[k]) && fresh(ms[k].payloads)
      ensures forall k :: 0 <= k < |ms| ==> ms[k].id == parts[k].id && ms[k].payloads.data == parts[k].data
    {
      ms := [];
      for i := 0 to |parts|
        invariant |ms| == i
        invariant forall k :: 0 <= k < i ==> fresh(ms[k]) && fresh(ms[k].payloads)
        invariant forall k :: 0 <= k < i ==> ms[k].id == parts[k].id && ms[k].payloads.data == parts[k].data
      {
        var blob := new Blob(parts[i].data);
        var m := new WireMessage(parts[i].id, blob);
        ms := ms + [m];
      }
    }

    /** The loop over the messages of a frame, which stops at the first that does not parse. */
    method ParseFrame(frame: PooledFrame, parts: seq<Part>) returns (out: seq<ParsedMessage>)
      requires |frame.messages| == |parts|
      requires forall k :: 0 <= k < |parts| ==>
                 frame.messages[k].id == parts[k].id && frame.messages[k].payloads.data == parts[k].data
      ensures Says(out, Legible(parts)) && forall k :: 0 <= k < |out| ==> fresh(out[k])
      ensures forall k :: 0 <= k < |out| ==> out[k].payloads == frame.messages[k].payloads
    {
      out := [];
      for i := 0 to |parts|
        invariant |out| == i && forall k :: 0 <= k < i ==> parts[k].parses && fresh(out[k])
        invariant forall k :: 0 <= k < i ==>
                    out[k].id == parts[k].id && out[k].payloads == frame.messages[k].payloads
      {
        if !parts[i].parses {
          LegibleUpTo(parts, i);
          return;
        }
        var m := new ParsedMessage(frame.messages[i].id, frame.messages[i].payloads);
        out := out + [m];
      }
      LegibleUpTo(parts, |parts|);
    }
  }

  /** Decoding again, into the same pooled frame, leaves the messages of the first batch as they were. */
  method DecodeTwice(c: FrameCodec, first: seq<Part>, second: Option<seq<Part>>) returns (a: seq<ParsedMessage>)
    requires c.Valid()
    modifies c, c.frames
    ensures c.Valid() && Says(a, Legible(first))
  {
    var ok;
    a, ok := c.Decode(Some(first));
    var _, _ := c.Decode(second);
  }
}
