/** The canceller table, whose closures may discard entries of the table while Cancel runs them. */
module Cancellers {
  import opened Protocol

  /** The shared map of cancel functions. Each method is one atomic operation of the underlying map. */
  class Canceller<C> {
    var ids: map<Id, C>

    constructor ()
      ensures ids == map[]
    {
      ids := map[];
    }

    method Register(id: Id, cancel: C)
      modifies this
      ensures ids == old(ids)[id := cancel]
    {
      ids := ids[id := cancel];
    }

    method Discard(id: Id)
      modifies this
      ensures ids == old(ids) - {id}
    {
      ids := ids - {id};
    }

    method LoadAndDelete(id: Id) returns (cancel: Option<C>)
      modifies this
      ensures cancel == if id in old(ids) then Some(old(ids)[id]) else None
      ensures ids == old(ids) - {id}
    {
      cancel := if id in ids then Some(ids[id]) else None;
      ids := ids - {id};
    }
  }

  // ---------------------------------------------------------------------------------------------
  // Specification
  // ---------------------------------------------------------------------------------------------

  /** A registered function: the number of its registration, the ids it discards when run, its result. */
  datatype Fn = Fn(reg: nat, discards: seq<Id>, fails: bool)

  /** How a registration ended: its function ran, or it was discarded or replaced. */
  datatype Mark = Ran(reg: nat) | Dropped(reg: nat)

  datatype Table = Table(ids: map<Id, Fn>, next: nat, log: seq<Mark>)

  function Discard(t: Table, id: Id): Table
  {
    if id in t.ids then t.(ids := t.ids - {id}, log := t.log + [Dropped(t.ids[id].reg)]) else t
  }

  function Members(ids: seq<Id>): set<Id> { set id | id in ids }

  function DiscardAll(t: Table, ids: seq<Id>): (r: Table)
    ensures r.ids == t.ids - Members(ids)
    decreases |ids|
  {
    if ids == [] then t else DiscardAll(Discard(t, ids[0]), ids[1..])
  }

  function Register(t: Table, id: Id, discards: seq<Id>, fails: bool): Table
  {
    var t1 := Discard(t, id);
    t1.(ids := t1.ids[id := Fn(t.next, discards, fails)], next := t.next + 1)
  }

  /** LoadAndDelete, and what the function does while it runs. */
  function RunFn(t: Table, id: Id): Table
    requires id in t.ids
  {
    DiscardAll(t.(ids := t.ids - {id}, log := t.log + [Ran(t.ids[id].reg)]), t.ids[id].discards)
  }

  /** `Cancel`: the table it leaves, and whether every function it ran succeeded. */
  function Cancel(t: Table, ids: seq<Id>): (Table, bool)
    decreases |ids|
  {
    if ids == [] then (t, true)
    else if ids[0] !in t.ids then Cancel(t, ids[1..])
    else if t.ids[ids[0]].fails then (RunFn(t, ids[0]), false)
    else Cancel(RunFn(t, ids[0]), ids[1..])
  }

  /** The loop of `Cancel` against the specification. The functions run between the map operations, so every
      turn sees the table as the functions before it left it. */
  method CancelIds(c: Canceller<Fn>, ids: seq<Id>, ghost t: Table) returns (ok: bool)
    requires c.ids == t.ids
    modifies c
    ensures ok == Cancel(t, ids).1 && c.ids == Cancel(t, ids).0.ids
  {
    ghost var now := t;
    for i := 0 to |ids|
      invariant c.ids == now.ids && Cancel(t, ids) == Cancel(now, ids[i..])
    {
      var cancel := c.LoadAndDelete(ids[i]);
      if cancel.Some? {
        InvokeFn(c, cancel.value);
        now := RunFn(now, ids[i]);
        if cancel.value.fails {
          return false;
        }
      }
      assert ids[i..][1..] == ids[i + 1..];
    }
    return true;
  }

  method InvokeFn(c: Canceller<Fn>, f: Fn)
    modifies c
    ensures c.ids == old(c.ids) - Members(f.discards)
  {
    for i := 0 to |f.discards|
      invariant c.ids == old(c.ids) - Members(f.discards[..i])
    {
      c.Discard(f.discards[i]);
      assert Members(f.discards[..i + 1]) == Members(f.discards[..i]) + {f.discards[i]};
    }
    assert f.discards[..|f.discards|] == f.discards;
  }

  // ---------------------------------------------------------------------------------------------
  // At most once, and never after Discard
  // ---------------------------------------------------------------------------------------------

  datatype Action =
    | Registering(id: Id, discards: seq<Id>, fails: bool)
    | Discarding(id: Id)
    | Cancelling(ids: seq<Id>)

  function Act(t: Table, a: Action): Table
  {
    match a
    case Registering(id, discards, fails) => Register(t, id, discards, fails)
    case Discarding(id) => Discard(t, id)
    case Cancelling(ids) => Cancel(t, ids).0
  }

  function Acts(actions: seq<Action>): Table
  {
    if actions == [] then Table(map[], 0, []) else Act(Acts(actions[..|actions| - 1]), actions[|actions| - 1])
  }

  /** No registration has ended twice. */
  predicate EndedOnce(log: seq<Mark>)
  {
    forall i, j :: 0 <= i < j < |log| ==> log[i].reg != log[j].reg
  }

  /** The registrations in the table are distinct, numbered, and have not ended. */
  predicate Sound(t: Table)
  {
    && EndedOnce(t.log)
    && (forall i :: 0 <= i < |t.log| ==> t.log[i].reg < t.next)
    && (forall id :: id in t.ids ==> t.ids[id].reg < t.next)
    && (forall id, i :: id in t.ids && 0 <= i < |t.log| ==> t.ids[id].reg != t.log[i].reg)
    && (forall a, b :: a in t.ids && b in t.ids && a != b ==> t.ids[a].reg != t.ids[b].reg)
  }

  lemma EndKept(t: Table, id: Id, m: Mark)
    requires Sound(t) && id in t.ids && m.reg == t.ids[id].reg
    ensures Sound(t.(ids := t.ids - {id}, log := t.log + [m]))
  {
  }

  lemma DiscardKept(t: Table, id: Id)
    requires Sound(t)
    ensures Sound(Discard(t, id))
  {
  }

  lemma RegisterKept(t: Table, id: Id, discards: seq<Id>, fails: bool)
    requires Sound(t)
    ensures Sound(Register(t, id, discards, fails))
  {
    DiscardKept(t, id);
  }

  lemma {:induction false} DiscardAllKept(t: Table, ids: seq<Id>)
    requires Sound(t)
    ensures Sound(DiscardAll(t, ids))
    decreases |ids|
  {
    if ids != [] {
      DiscardKept(t, ids[0]);
      DiscardAllKept(Discard(t, ids[0]), ids[1..]);
    }
  }

  lemma {:induction false} CancelKept(t: Table, ids: seq<Id>)
    requires Sound(t)
    ensures Sound(Cancel(t, ids).0)
    decreases |ids|
  {
    if ids != [] {
      if ids[0] in t.ids {
        var f := t.ids[ids[0]];
        EndKept(t, ids[0], Ran(f.reg));
        DiscardAllKept(t.(ids := t.ids - {ids[0]}, log := t.log + [Ran(f.reg)]), f.discards);
        CancelKept(RunFn(t, ids[0]), ids[1..]);
      } else {
        CancelKept(t, ids[1..]);
      }
    }
  }

  /** For every sequence of Register, Discard and Cancel, duplicate ids and re-entrant Discards included, a
      registration ends at most once: its function runs at most once, and never after it was discarded. */
  lemma {:induction false} RunsAtMostOnce(actions: seq<Action>)
    ensures Sound(Acts(actions)) && EndedOnce(Acts(actions).log)
  {
    if actions != [] {
      RunsAtMostOnce(actions[..|actions| - 1]);
      var t := Acts(actions[..|actions| - 1]);
      match actions[|actions| - 1]
      case Registering(id, discards, fails) => RegisterKept(t, id, discards, fails);
      case Discarding(id) => DiscardKept(t, id);
      case Cancelling(ids) => CancelKept(t, ids);
    }
  }

  // ---------------------------------------------------------------------------------------------
  // What a Cancel leaves behind
  // ---------------------------------------------------------------------------------------------

  /** How many of the ids Cancel looks at: all of them, or up to and including the first failing function. */
  function Reached(t: Table, ids: seq<Id>): (n: nat)
    ensures n <= |ids| && (Cancel(t, ids).1 ==> n == |ids|)
    decreases |ids|
  {
    if ids == [] then 0
    else if ids[0] !in t.ids then 1 + Reached(t, ids[1..])
    else if t.ids[ids[0]].fails then 1
    else 1 + Reached(RunFn(t, ids[0]), ids[1..])
  }

  /** The ids discarded by the functions Cancel runs. */
  function DiscardedBy(t: Table, ids: seq<Id>): seq<Id>
    decreases |ids|
  {
    if ids == [] then []
    else if ids[0] !in t.ids then DiscardedBy(t, ids[1..])
    else t.ids[ids[0]].discards
         + (if t.ids[ids[0]].fails then [] else DiscardedBy(RunFn(t, ids[0]), ids[1..]))
  }

  /** Cancel removes exactly the ids it looked at and those its functions discarded, and leaves every other
      entry as it was. */
  lemma {:induction false} CancelRemoves(t: Table, ids: seq<Id>, id: Id)
    ensures var r := Cancel(t, ids).0.ids;
            && (id in r <==> id in t.ids && id !in ids[..Reached(t, ids)] && id !in DiscardedBy(t, ids))
            && (id in r ==> r[id] == t.ids[id])
    decreases |ids|
  {
    if ids != [] {
      var t1 := if ids[0] in t.ids then RunFn(t, ids[0]) else t;
      CancelRemoves(t1, ids[1..], id);
      var n := Reached(t1, ids[1..]);
      assert ids[..n + 1] == [ids[0]] + ids[1..][..n];
      assert ids[..1] == [ids[0]];
    }
  }

  /** Cancel fails exactly at a function that fails; it succeeds only if every failing function it was to run had
      been discarded by one before it. */
  lemma {:induction false} CancelFailsExactly(t: Table, ids: seq<Id>)
    ensures !Cancel(t, ids).1 ==>
              var n := Reached(t, ids);
              n > 0 && ids[n - 1] in t.ids && t.ids[ids[n - 1]].fails
    ensures Cancel(t, ids).1 ==>
              forall id :: id in ids && id in t.ids && t.ids[id].fails ==> id in DiscardedBy(t, ids)
    decreases |ids|
  {
    if ids != [] {
      var t1 := if ids[0] in t.ids then RunFn(t, ids[0]) else t;
      CancelFailsExactly(t1, ids[1..]);
    }
  }

  /** A successful Cancel leaves none of its ids registered. */
  lemma SuccessClears(t: Table, ids: seq<Id>, id: Id)
    requires Cancel(t, ids).1 && id in ids
    ensures id !in Cancel(t, ids).0.ids
  {
    CancelRemoves(t, ids, id);
    assert ids[..|ids|] == ids;
  }

  /** A failing Cancel leaves a later id, not named earlier in the list, untouched unless a function that ran
      discarded it. */
  lemma FailureSpares(t: Table, ids: seq<Id>, id: Id)
    requires !Cancel(t, ids).1 && id in t.ids
    requires id !in ids[..Reached(t, ids)] && id !in DiscardedBy(t, ids)
    ensures id in Cancel(t, ids).0.ids && Cancel(t, ids).0.ids[id] == t.ids[id]
  {
    CancelRemoves(t, ids, id);
  }
}
