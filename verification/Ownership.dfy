/** Pooled connections with one owner each: idle in the channel, or held by one caller. */
module Ownership {
  type Cid = nat

  datatype Hold = Nothing | Client(c: Cid)

  ghost predicate Owned<C(!new)>(idle: seq<Cid>, callers: seq<C>, hold: C -> Hold, used: set<Cid>)
  {
    && (forall i, j :: 0 <= i < j < |idle| ==> idle[i] != idle[j])
    && (forall i, j :: 0 <= i < |idle| && 0 <= j < |callers| ==> hold(callers[j]) != Client(idle[i]))
    && (forall i, j :: 0 <= i < j < |callers| && hold(callers[i]).Client? ==> hold(callers[i]) != hold(callers[j]))
    && (forall i :: 0 <= i < |idle| ==> idle[i] in used)
    && (forall i :: 0 <= i < |callers| && hold(callers[i]).Client? ==> hold(callers[i]).c in used)
  }

  /** The caller keeps its client or lets go of it. */
  lemma MoveOn<C(!new)>(idle: seq<Cid>, callers: seq<C>, hold: C -> Hold, used: set<Cid>, i: nat, c: C)
    requires Owned(idle, callers, hold, used) && i < |callers|
    requires hold(c) == Nothing || hold(c) == hold(callers[i])
    ensures Owned(idle, callers[i := c], hold, used)
  {
  }

  lemma TakeHead<C(!new)>(idle: seq<Cid>, callers: seq<C>, hold: C -> Hold, used: set<Cid>, i: nat, c: C)
    requires Owned(idle, callers, hold, used) && i < |callers| && idle != []
    requires hold(c) == Client(idle[0])
    ensures Owned(idle[1..], callers[i := c], hold, used)
  {
  }

  lemma GiveBack<C(!new)>(idle: seq<Cid>, callers: seq<C>, hold: C -> Hold, used: set<Cid>, i: nat, c: C)
    requires Owned(idle, callers, hold, used) && i < |callers| && hold(callers[i]).Client? && hold(c) == Nothing
    ensures Owned(idle + [hold(callers[i]).c], callers[i := c], hold, used)
  {
  }

  lemma TakeNew<C(!new)>(idle: seq<Cid>, callers: seq<C>, hold: C -> Hold, used: set<Cid>, i: nat, c: C, id: Cid)
    requires Owned(idle, callers, hold, used) && i < |callers| && id !in used && hold(c) == Client(id)
    ensures Owned(idle, callers[i := c], hold, used + {id})
  {
  }

  lemma Joins<C(!new)>(idle: seq<Cid>, callers: seq<C>, hold: C -> Hold, used: set<Cid>, c: C)
    requires Owned(idle, callers, hold, used) && hold(c) == Nothing
    ensures Owned(idle, callers + [c], hold, used)
  {
  }

  /** There is always a connection nobody has had yet. */
  lemma {:induction false} Unused(used: set<Cid>) returns (c: Cid)
    ensures c !in used && forall x :: x in used ==> x < c
  {
    c := 0;
    if used != {} {
      var y :| y in used;
      var d := Unused(used - {y});
      c := if y < d then d else y + 1;
      assert forall x :: x in used ==> x in used - {y} || x == y;
    }
  }
}
