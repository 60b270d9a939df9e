/** The child registry under concurrency: Listen and Push as interleaved atomic steps. */
module RegistryRendezvous {
  import opened Protocol

  /** A call of Listen or Push in progress. It also names what the call stores: its listener or its entry. */
  type Tid = nat

  /** Both calls store into one map, load from the other, and call the listener if they found something. */
  datatype Pc = Ready | Stored | Loaded(found: Option<Tid>) | Done(found: Option<Tid>)

  datatype Thread = Listening(child: Id, pc: Pc) | Pushing(child: Id, pc: Pc)

  /** The listener of thread `listener` was called, by thread `caller`, with the entry of thread `entry`. */
  datatype Call = Call(caller: Tid, listener: Tid, entry: Tid)

  datatype State = State(entries: map<Id, Tid>, listeners: map<Id, Tid>, threads: map<Tid, Thread>, calls: seq<Call>)

  function Lookup(m: map<Id, Tid>, child: Id): Option<Tid> { if child in m then Some(m[child]) else None }

  function Store(s: State, t: Tid): State
    requires t in s.threads
  {
    var th := s.threads[t];
    if th.Listening? then s.(listeners := s.listeners[th.child := t]) else s.(entries := s.entries[th.child := t])
  }

  function Load(s: State, th: Thread): Option<Tid>
  {
    if th.Listening? then Lookup(s.entries, th.child) else Lookup(s.listeners, th.child)
  }

  function CallOf(t: Tid, th: Thread, found: Tid): Call
  {
    if th.Listening? then Call(t, t, found) else Call(t, found, t)
  }

  /** Thread `t` takes its next atomic step. The call itself runs under the registry's mutex. */
  function Step(s: State, t: Tid): State
  {
    if t !in s.threads then s
    else
      var th := s.threads[t];
      match th.pc
      case Ready => Store(s, t).(threads := s.threads[t := th.(pc := Stored)])
      case Stored => s.(threads := s.threads[t := th.(pc := Loaded(Load(s, th)))])
      case Loaded(found) =>
        s.(threads := s.threads[t := th.(pc := Done(found))],
           calls := if found.None? then s.calls else s.calls + [CallOf(t, th, found.value)])
      case Done(_) => s
  }

  function Run(s: State, schedule: seq<Tid>): State
  {
    if schedule == [] then s else Step(Run(s, schedule[..|schedule| - 1]), schedule[|schedule| - 1])
  }

  /** Any number of calls, on any ids, none of which has begun. */
  predicate Fresh(threads: map<Tid, Thread>)
  {
    forall t :: t in threads ==> threads[t].pc == Ready
  }

  function Begin(threads: map<Tid, Thread>): State { State(map[], map[], threads, []) }

  // ---------------------------------------------------------------------------------------------
  // The invariant
  // ---------------------------------------------------------------------------------------------

  predicate Looked(pc: Pc) { pc.Loaded? || pc.Done? }

  predicate IsListener(s: State, t: Tid, child: Id)
  {
    t in s.threads && s.threads[t].Listening? && s.threads[t].child == child && s.threads[t].pc != Ready
  }

  predicate IsPusher(s: State, t: Tid, child: Id)
  {
    t in s.threads && s.threads[t].Pushing? && s.threads[t].child == child && s.threads[t].pc != Ready
  }

  /** The maps hold listeners and entries that were stored for that child. */
  predicate ChildSound(s: State, c: Id)
  {
    && (c in s.listeners ==> IsListener(s, s.listeners[c], c))
    && (c in s.entries ==> IsPusher(s, s.entries[c], c))
  }

  /** A call that has stored left something behind; what it found was stored for its child; and once it has
      finished, the call it owed has been made. */
  predicate ThreadSound(s: State, t: Tid)
  {
    t in s.threads && s.threads[t].pc != Ready ==>
      var th := s.threads[t];
      && (if th.Listening? then th.child in s.listeners else th.child in s.entries)
      && (Looked(th.pc) && th.pc.found.Some? ==>
            if th.Listening? then IsPusher(s, th.pc.found.value, th.child)
            else IsListener(s, th.pc.found.value, th.child))
      && (Calls(th) ==> CallOf(t, th, th.pc.found.value) in s.calls)
  }

  /** The rendezvous: if the current listener found no entry, a Push that has looked found that listener. */
  predicate Meets(s: State, c: Id, p: Tid)
  {
    c in s.listeners && s.listeners[c] in s.threads && s.threads[s.listeners[c]].pc in {Loaded(None), Done(None)}
    && IsPusher(s, p, c) && Looked(s.threads[p].pc)
    ==> s.threads[p].pc.found == Some(s.listeners[c])
  }

  predicate Calls(th: Thread) { th.pc.Done? && th.pc.found.Some? }

  /** A call was made by a finished thread, with what it found. */
  predicate CallSound(s: State, k: Call)
  {
    && k.caller in s.threads && Calls(s.threads[k.caller])
    && k == CallOf(k.caller, s.threads[k.caller], s.threads[k.caller].pc.found.value)
  }

  ghost predicate Sound(s: State)
  {
    && (forall c :: ChildSound(s, c))
    && (forall t :: ThreadSound(s, t))
    && (forall c, p :: Meets(s, c, p))
    && (forall k :: k in s.calls ==> CallSound(s, k))
  }

  /** The steps of one thread leave what the others rely on. */
  lemma StepMonotone(s: State, t: Tid)
    ensures forall u, c :: IsListener(s, u, c) ==> IsListener(Step(s, t), u, c)
    ensures forall u, c :: IsPusher(s, u, c) ==> IsPusher(Step(s, t), u, c)
    ensures forall c :: c in s.listeners ==> c in Step(s, t).listeners
    ensures forall c :: c in s.entries ==> c in Step(s, t).entries
  {
  }

  lemma ChildKept(s: State, t: Tid, c: Id)
    requires ChildSound(s, c)
    ensures ChildSound(Step(s, t), c)
  {
  }

  lemma ThreadKept(s: State, t: Tid, u: Tid)
    requires ThreadSound(s, u) && forall c :: ChildSound(s, c)
    ensures ThreadSound(Step(s, t), u)
  {
    StepMonotone(s, t);
    if t in s.threads {
      assert ChildSound(s, s.threads[t].child);
    }
  }

  lemma MeetsKept(s: State, t: Tid, c: Id, p: Tid)
    requires Sound(s)
    ensures Meets(Step(s, t), c, p)
  {
    assert Meets(s, c, p) && ChildSound(s, c) && ThreadSound(s, p);
  }

  lemma CallKept(s: State, t: Tid, k: Call)
    requires Sound(s) && k in Step(s, t).calls
    ensures CallSound(Step(s, t), k)
  {
  }

  lemma StepKept(s: State, t: Tid)
    requires Sound(s)
    ensures Sound(Step(s, t))
  {
    var r := Step(s, t);
    forall c ensures ChildSound(r, c) { ChildKept(s, t, c); }
    forall u ensures ThreadSound(r, u) { ThreadKept(s, t, u); }
    forall c, p ensures Meets(r, c, p) { MeetsKept(s, t, c, p); }
    forall k | k in r.calls ensures CallSound(r, k) { CallKept(s, t, k); }
  }

  lemma {:induction false} AlwaysSound(threads: map<Tid, Thread>, schedule: seq<Tid>)
    requires Fresh(threads)
    ensures Sound(Run(Begin(threads), schedule))
  {
    if schedule != [] {
      AlwaysSound(threads, schedule[..|schedule| - 1]);
      StepKept(Run(Begin(threads), schedule[..|schedule| - 1]), schedule[|schedule| - 1]);
    }
  }

  // ---------------------------------------------------------------------------------------------
  // The theorems
  // ---------------------------------------------------------------------------------------------

  lemma Wakeup(s: State, child: Id, p: Tid)
    requires Sound(s) && IsPusher(s, p, child) && s.threads[p].pc.Done?
    requires child in s.listeners && s.listeners[child] in s.threads && s.threads[s.listeners[child]].pc.Done?
    ensures exists k :: k in s.calls && k.listener == s.listeners[child] && IsPusher(s, k.entry, child)
  {
    var l := s.listeners[child];
    assert ChildSound(s, child) && ThreadSound(s, l) && ThreadSound(s, p) && Meets(s, child, p);
    if s.threads[l].pc.found.Some? {
      assert CallOf(l, s.threads[l], s.threads[l].pc.found.value) in s.calls;
    } else {
      assert CallOf(p, s.threads[p], l) in s.calls;
    }
  }

  /** No lost wakeup: in every interleaving of any number of calls, once some Push on an id and the Listen
      that was stored last on it have both finished, that listener has been called with an entry pushed for
      that id. */
  lemma NoLostWakeup(threads: map<Tid, Thread>, schedule: seq<Tid>, child: Id, p: Tid)
    requires Fresh(threads)
    requires var s := Run(Begin(threads), schedule);
             && IsPusher(s, p, child) && s.threads[p].pc.Done?
             && child in s.listeners && s.listeners[child] in s.threads && s.threads[s.listeners[child]].pc.Done?
    ensures var s := Run(Begin(threads), schedule);
            exists k :: k in s.calls && k.listener == s.listeners[child] && IsPusher(s, k.entry, child)
  {
    AlwaysSound(threads, schedule);
    Wakeup(Run(Begin(threads), schedule), child, p);
  }

  function CallCount(calls: seq<Call>, l: Tid): nat
  {
    if calls == [] then 0
    else CallCount(calls[..|calls| - 1], l) + (if calls[|calls| - 1].listener == l then 1 else 0)
  }

  lemma CallCountSnoc(calls: seq<Call>, k: Call, l: Tid)
    ensures CallCount(calls + [k], l) == CallCount(calls, l) + (if k.listener == l then 1 else 0)
  {
  }

  /** `l` and `p` are the only calls on the child, one Listen and one Push. */
  predicate Pair(threads: map<Tid, Thread>, child: Id, l: Tid, p: Tid)
  {
    && l in threads && threads[l].Listening? && threads[l].child == child
    && p in threads && threads[p].Pushing? && threads[p].child == child
    && forall t :: t in threads && threads[t].child == child ==> t == l || t == p
  }

  /** With a single pair on the child, the listener's calls are those of the two threads. */
  predicate Counted(s: State, child: Id, l: Tid, p: Tid)
  {
    && Pair(s.threads, child, l, p)
    && CallCount(s.calls, l) == One(Calls(s.threads[l])) + One(Calls(s.threads[p]))
  }

  lemma CountKept(s: State, t: Tid, child: Id, l: Tid, p: Tid)
    requires Sound(s) && Counted(s, child, l, p)
    ensures Counted(Step(s, t), child, l, p)
  {
    var r := Step(s, t);
    assert Pair(r.threads, child, l, p);
    if r.calls != s.calls {
      var k := CallOf(t, s.threads[t], s.threads[t].pc.found.value);
      CallCountSnoc(s.calls, k, l);
      assert ThreadSound(s, t);
    }
  }

  lemma {:induction false} AlwaysCounted(threads: map<Tid, Thread>, schedule: seq<Tid>, child: Id, l: Tid, p: Tid)
    requires Fresh(threads) && Pair(threads, child, l, p)
    ensures Counted(Run(Begin(threads), schedule), child, l, p)
  {
    if schedule != [] {
      var k := |schedule| - 1;
      AlwaysCounted(threads, schedule[..k], child, l, p);
      AlwaysSound(threads, schedule[..k]);
      CountKept(Run(Begin(threads), schedule[..k]), schedule[k], child, l, p);
    }
  }

  predicate Finished(s: State, t: Tid) { t in s.threads && s.threads[t].pc.Done? }

  predicate NotBegun(s: State, t: Tid) { t in s.threads && s.threads[t].pc.Ready? }

  lemma PairFinished(s: State, child: Id, l: Tid, p: Tid)
    requires Sound(s) && Counted(s, child, l, p) && Finished(s, l) && Finished(s, p)
    ensures 1 <= CallCount(s.calls, l) <= 2
  {
    assert ThreadSound(s, l) && ChildSound(s, child) && Meets(s, child, p);
    assert IsListener(s, s.listeners[child], child);
  }

  /** A single Listen and a single Push that have both finished give one call or two. */
  lemma PairCallsOnceOrTwice(threads: map<Tid, Thread>, schedule: seq<Tid>, child: Id, l: Tid, p: Tid)
    requires Fresh(threads) && Pair(threads, child, l, p)
    requires Finished(Run(Begin(threads), schedule), l) && Finished(Run(Begin(threads), schedule), p)
    ensures 1 <= CallCount(Run(Begin(threads), schedule).calls, l) <= 2
  {
    AlwaysCounted(threads, schedule, child, l, p);
    AlwaysSound(threads, schedule);
    PairFinished(Run(Begin(threads), schedule), child, l, p);
  }

  /** At some point of the schedule `a` had looked while `b` had not begun. */
  predicate Ahead(s: State, schedule: seq<Tid>, a: Tid, b: Tid)
  {
    || (HasLooked(Run(s, schedule), a) && NotBegun(Run(s, schedule), b))
    || (schedule != [] && Ahead(s, schedule[..|schedule| - 1], a, b))
  }

  predicate HasLooked(s: State, t: Tid) { t in s.threads && Looked(s.threads[t].pc) }

  /** A thread of the pair finds something exactly if the other has begun when it looks. */
  lemma FindsTheOther(s: State, child: Id, l: Tid, p: Tid)
    requires Sound(s) && Pair(s.threads, child, l, p)
    ensures Load(s, s.threads[l]).None? <==> NotBegun(s, p)
    ensures Load(s, s.threads[p]).None? <==> NotBegun(s, l)
  {
    assert ThreadSound(s, l) && ThreadSound(s, p) && ChildSound(s, child);
  }

  /** `a`, one of the pair, has found nothing exactly if it was ahead of `b`, the other. */
  predicate AheadFindsNothing(s: State, schedule: seq<Tid>, a: Tid, b: Tid)
  {
    var r := Run(s, schedule);
    if HasLooked(r, a) then r.threads[a].pc.found.None? <==> Ahead(s, schedule, a, b) else !Ahead(s, schedule, a, b)
  }

  predicate OneOfPair(threads: map<Tid, Thread>, child: Id, a: Tid, b: Tid)
  {
    Pair(threads, child, a, b) || Pair(threads, child, b, a)
  }

  lemma AheadStep(s: State, t: Tid, child: Id, a: Tid, b: Tid)
    requires Sound(s) && OneOfPair(s.threads, child, a, b)
    ensures var r := Step(s, t);
            && (HasLooked(s, a) ==> HasLooked(r, a) && r.threads[a].pc.found == s.threads[a].pc.found)
            && (NotBegun(r, b) ==> NotBegun(s, b))
            && (!HasLooked(s, a) && HasLooked(r, a) ==> (r.threads[a].pc.found.None? <==> NotBegun(r, b)))
  {
    if Pair(s.threads, child, a, b) {
      FindsTheOther(s, child, a, b);
    } else {
      FindsTheOther(s, child, b, a);
    }
  }

  lemma PairStays(s: State, t: Tid, child: Id, a: Tid, b: Tid)
    requires Pair(s.threads, child, a, b)
    ensures Pair(Step(s, t).threads, child, a, b)
  {
  }

  lemma {:induction false} AheadExactly(threads: map<Tid, Thread>, schedule: seq<Tid>, child: Id, a: Tid, b: Tid)
    requires Fresh(threads) && OneOfPair(threads, child, a, b)
    ensures OneOfPair(Run(Begin(threads), schedule).threads, child, a, b)
    ensures AheadFindsNothing(Begin(threads), schedule, a, b)
    decreases |schedule|
  {
    if schedule != [] {
      var k := |schedule| - 1;
      var s := Run(Begin(threads), schedule[..k]);
      AheadExactly(threads, schedule[..k], child, a, b);
      AlwaysSound(threads, schedule[..k]);
      AheadStep(s, schedule[k], child, a, b);
      if Pair(s.threads, child, a, b) {
        PairStays(s, schedule[k], child, a, b);
      } else {
        PairStays(s, schedule[k], child, b, a);
      }
      assert HasLooked(s, a) && NotBegun(s, b) ==> Ahead(Begin(threads), schedule[..k], a, b);
    }
  }

  /** A single Listen and a single Push that have both finished give one call if and only if, at some point of
      the schedule, one of them had looked while the other had not begun; otherwise they give two. In
      particular there is one call when they do not overlap. */
  lemma PairCallsExactly(threads: map<Tid, Thread>, schedule: seq<Tid>, child: Id, l: Tid, p: Tid)
    requires Fresh(threads) && Pair(threads, child, l, p)
    requires Finished(Run(Begin(threads), schedule), l) && Finished(Run(Begin(threads), schedule), p)
    ensures CallCount(Run(Begin(threads), schedule).calls, l)
         == if Ahead(Begin(threads), schedule, l, p) || Ahead(Begin(threads), schedule, p, l) then 1 else 2
  {
    AlwaysCounted(threads, schedule, child, l, p);
    AheadExactly(threads, schedule, child, l, p);
    AheadExactly(threads, schedule, child, p, l);
    PairCallsOnceOrTwice(threads, schedule, child, l, p);
  }

  lemma {:induction false} RunSplit(s: State, a: seq<Tid>, b: seq<Tid>)
    ensures Run(s, a + b) == Run(Run(s, a), b)
    decreases |b|
  {
    if b == [] {
      assert a + b == a;
    } else {
      assert (a + b)[..|a + b| - 1] == a + b[..|b| - 1];
      RunSplit(s, a, b[..|b| - 1]);
    }
  }

  lemma {:induction false} AheadLasts(s: State, a: seq<Tid>, b: seq<Tid>, x: Tid, y: Tid)
    requires Ahead(s, a, x, y)
    ensures Ahead(s, a + b, x, y)
    decreases |b|
  {
    if b == [] {
      assert a + b == a;
    } else {
      AheadLasts(s, a, b[..|b| - 1], x, y);
      assert (a + b)[..|a + b| - 1] == a + b[..|b| - 1];
    }
  }

  /** If one of the two has finished before the other begins, there is exactly one call. */
  lemma SequentialPairCallsOnce(threads: map<Tid, Thread>, a: seq<Tid>, b: seq<Tid>, child: Id, l: Tid, p: Tid)
    requires Fresh(threads) && Pair(threads, child, l, p)
    requires var m := Run(Begin(threads), a); (Finished(m, l) && NotBegun(m, p)) || (Finished(m, p) && NotBegun(m, l))
    requires Finished(Run(Begin(threads), a + b), l) && Finished(Run(Begin(threads), a + b), p)
    ensures CallCount(Run(Begin(threads), a + b).calls, l) == 1
  {
    if Finished(Run(Begin(threads), a), l) && NotBegun(Run(Begin(threads), a), p) {
      AheadLasts(Begin(threads), a, b, l, p);
    } else {
      AheadLasts(Begin(threads), a, b, p, l);
    }
    PairCallsExactly(threads, a + b, child, l, p);
  }

  /** Two calls do happen when both store before either looks. */
  lemma OverlappingPairMayCallTwice(child: Id)
    ensures var threads := map[0 := Listening(child, Ready), 1 := Pushing(child, Ready)];
            Run(Begin(threads), [0, 1] + [0, 1] + [0, 1]).calls == [Call(0, 0, 1), Call(1, 0, 1)]
  {
    var s := Begin(map[0 := Listening(child, Ready), 1 := Pushing(child, Ready)]);
    RunSplit(s, [0, 1] + [0, 1], [0, 1]);
    RunSplit(s, [0, 1], [0, 1]);
    Both(s);
    Both(Run(s, [0, 1]));
    Both(Run(s, [0, 1] + [0, 1]));
  }

  lemma Both(s: State)
    ensures Run(s, [0, 1]) == Step(Step(s, 0), 1)
  {
    assert [0, 1][..1] == [0] && [0][..0] == [];
    assert Run(s, [0]) == Step(s, 0);
  }
}
