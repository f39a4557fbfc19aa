/**
 The direct client's connection pool. Dialling happens inside the lock, so it is one event; a dial
 error is remembered and ends all dialling. A failed call clears the pooled entry's connection in
 place; the entry is shared by pointer, so a `live` set says which entries still have a connection.
 */
module DirectPool {
  import opened Totals
  import opened Ownership

  /** Where a `Call` stands. */
  datatype Caller =
    | Asking                 // before dial
    | Waiting                // polling the channel
    | FoundNil(c: Cid)       // received an entry without a connection; `created` not yet lowered
    | Using(c: Cid)
    | Failing(c: Cid)        // entry's connection cleared; `created` not yet lowered
    | Finished

  datatype Pool = Pool(size: nat, created: int, dialErr: bool, idle: seq<Cid>, live: set<Cid>, callers: seq<Caller>,
                       used: set<Cid>)

  function NewPool(poolSize: int): Pool { Pool(if poolSize <= 0 then 32 else poolSize, 0, false, [], {}, [], {}) }

  datatype Event =
    | Arrive
    | DialOk(i: nat, c: Cid)
    | DialError(i: nat)
    | NoDial(i: nat)          // sticky error, or "pool full"
    | Receive(i: nat)
    | ReceiveNil(i: nat)
    | Bury(i: nat)            // lower `created` for the nil entry, poll again
    | CallNil(i: nat)         // the call finds its entry without a connection: returns an error, count untouched
    | Fail(i: nat)            // write, read or header check failed
    | Drop(i: nat)            // lower `created` after a failure
    | Put(i: nat)
    | PutFull(i: nat)         // channel full: the connection is closed, count untouched

  predicate Is(p: Pool, i: nat) { i < |p.callers| }

  predicate CanDial(p: Pool) { !p.dialErr && p.created < p.size }

  predicate Enabled(p: Pool, e: Event)
  {
    match e
    case Arrive => true
    case DialOk(i, c) => Is(p, i) && p.callers[i] == Asking && CanDial(p) && c !in p.used
    case DialError(i) => Is(p, i) && p.callers[i] == Asking && CanDial(p)
    case NoDial(i) => Is(p, i) && p.callers[i] == Asking && !CanDial(p)
    case Receive(i) => Is(p, i) && p.callers[i] == Waiting && p.idle != [] && p.idle[0] in p.live
    case ReceiveNil(i) => Is(p, i) && p.callers[i] == Waiting && p.idle != [] && p.idle[0] !in p.live
    case Bury(i) => Is(p, i) && p.callers[i].FoundNil?
    case CallNil(i) => Is(p, i) && p.callers[i].Using? && p.callers[i].c !in p.live
    case Fail(i) => Is(p, i) && p.callers[i].Using? && p.callers[i].c in p.live
    case Drop(i) => Is(p, i) && p.callers[i].Failing?
    case Put(i) => Is(p, i) && p.callers[i].Using? && p.callers[i].c in p.live && |p.idle| < p.size
    case PutFull(i) => Is(p, i) && p.callers[i].Using? && p.callers[i].c in p.live && |p.idle| >= p.size
  }

  function Apply(p: Pool, e: Event): Pool
    requires Enabled(p, e)
  {
    match e
    case Arrive => p.(callers := p.callers + [Asking])
    case DialOk(i, c) =>
      p.(created := p.created + 1, callers := p.callers[i := Using(c)], live := p.live + {c}, used := p.used + {c})
    case DialError(i) => p.(dialErr := true, callers := p.callers[i := Waiting])
    case NoDial(i) => p.(callers := p.callers[i := Waiting])
    case Receive(i) => p.(idle := p.idle[1..], callers := p.callers[i := Using(p.idle[0])])
    case ReceiveNil(i) => p.(idle := p.idle[1..], callers := p.callers[i := FoundNil(p.idle[0])])
    case Bury(i) => p.(created := p.created - 1, callers := p.callers[i := Waiting])
    case CallNil(i) => p.(callers := p.callers[i := Finished])
    case Fail(i) => p.(callers := p.callers[i := Failing(p.callers[i].c)], live := p.live - {p.callers[i].c})
    case Drop(i) => p.(created := p.created - 1, callers := p.callers[i := Finished])
    case Put(i) => p.(idle := p.idle + [p.callers[i].c], callers := p.callers[i := Finished])
    case PutFull(i) => p.(callers := p.callers[i := Finished])
  }

  // ---------------------------------------------------------------- invariants

  function Claims(c: Caller): int { if c.Asking? || c.Waiting? || c.Finished? then 0 else 1 }

  function Holding(c: Caller): Hold { if c.FoundNil? || c.Using? || c.Failing? then Client(c.c) else Nothing }

  ghost predicate Exact(p: Pool)
  {
    && p.created == |p.idle| + Total(p.callers, Claims)
    && 0 <= p.created <= p.size
  }

  ghost predicate OneOwner(p: Pool) { Owned(p.idle, p.callers, Holding, p.used) }

  /** Idle entries and entries in use have a connection; that of a failed call has been cleared. */
  predicate Connected(p: Pool)
  {
    && (forall i :: 0 <= i < |p.idle| ==> p.idle[i] in p.live)
    && (forall i :: 0 <= i < |p.callers| ==> ConnectedAt(p.callers[i], p.live))
  }

  predicate ConnectedAt(c: Caller, live: set<Cid>)
  {
    !c.FoundNil? && (c.Using? ==> c.c in live) && (c.Failing? ==> c.c !in live)
  }

  ghost predicate Inv(p: Pool) { Exact(p) && OneOwner(p) && Connected(p) }

  /** Branches of the code that no run reaches. */
  predicate Dead(e: Event) { e.ReceiveNil? || e.Bury? || e.CallNil? || e.PutFull? }

  lemma NeverDead(p: Pool, e: Event)
    requires Inv(p) && Enabled(p, e)
    ensures !Dead(e)
  {
    hide OneOwner;
    if e.PutFull? { TotalAtLeast(p.callers, e.i, Claims); }
  }

  /** A caller that moves changes its claim and the idle entries as the count says. */
  lemma ClaimMoves(p: Pool, i: nat, c: Caller, created: int, idle: seq<Cid>)
    requires Exact(p) && Is(p, i) && created - |idle| - Claims(c) == p.created - |p.idle| - Claims(p.callers[i])
    ensures created == |idle| + Total(p.callers[i := c], Claims)
  {
    TotalSet(p.callers, i, c, Claims);
  }

  lemma ClaimCounts(p: Pool, i: nat)
    requires Exact(p) && Is(p, i)
    ensures p.created >= |p.idle| + Claims(p.callers[i])
  {
    TotalAtLeast(p.callers, i, Claims);
  }

  lemma ExactKept(p: Pool, e: Event)
    requires Exact(p) && Enabled(p, e) && !Dead(e)
    ensures Exact(Apply(p, e))
  {
    if e.Arrive? {
      TotalPush(p.callers, Asking, Claims);
    } else {
      ClaimCounts(p, e.i);
      hide Total;
      var p' := Apply(p, e);
      ClaimMoves(p, e.i, p'.callers[e.i], p'.created, p'.idle);
    }
  }

  lemma OneOwnerKept(p: Pool, e: Event)
    requires OneOwner(p) && Enabled(p, e)
    ensures OneOwner(Apply(p, e))
  {
    hide Owned;
    match e
    case Arrive => Joins(p.idle, p.callers, Holding, p.used, Asking);
    case DialOk(i, c) => TakeNew(p.idle, p.callers, Holding, p.used, i, Using(c), c);
    case Receive(i) => TakeHead(p.idle, p.callers, Holding, p.used, i, Using(p.idle[0]));
    case ReceiveNil(i) => TakeHead(p.idle, p.callers, Holding, p.used, i, FoundNil(p.idle[0]));
    case Put(i) => GiveBack(p.idle, p.callers, Holding, p.used, i, Finished);
    case _ => MoveOn(p.idle, p.callers, Holding, p.used, e.i, Apply(p, e).callers[e.i]);
  }

  /** Clearing a connection in place touches no other owner's entry. */
  lemma FailClearsOwn(p: Pool, i: nat)
    requires OneOwner(p) && Connected(p) && Enabled(p, Fail(i))
    ensures Connected(Apply(p, Fail(i)))
  {
    var c := p.callers[i].c;
    assert Holding(p.callers[i]) == Client(c);
    forall j | 0 <= j < |p.callers| && j != i && p.callers[j].Using? ensures p.callers[j].c != c {
      assert Holding(p.callers[j]) == Client(p.callers[j].c);
    }
  }

  lemma ConnectedKept(p: Pool, e: Event)
    requires OneOwner(p) && Connected(p) && Enabled(p, e) && !Dead(e)
    ensures Connected(Apply(p, e))
  {
    if e.Fail? { FailClearsOwn(p, e.i); }
    if e.DialOk? { DialNew(p, e.i, e.c); }
    hide Owned;
  }

  /** A new connection is nobody's cleared one. */
  lemma DialNew(p: Pool, i: nat, c: Cid)
    requires OneOwner(p) && Connected(p) && Enabled(p, DialOk(i, c))
    ensures Connected(Apply(p, DialOk(i, c)))
  {
    forall j | 0 <= j < |p.callers| && p.callers[j].Failing? ensures p.callers[j].c != c {
      assert Holding(p.callers[j]) == Client(p.callers[j].c);
    }
  }

  lemma SameSize(p: Pool, e: Event)
    requires Enabled(p, e)
    ensures Apply(p, e).size == p.size
  {
  }

  predicate Step(p: Pool, e: Event, p': Pool) { Enabled(p, e) && p' == Apply(p, e) }

  lemma InvKept(p: Pool, e: Event, p': Pool)
    requires Inv(p) && Step(p, e, p')
    ensures Inv(p') && !Dead(e)
  {
    hide Exact, OneOwner, Connected, Enabled, Apply, Dead;
    NeverDead(p, e);
    ExactKept(p, e);
    OneOwnerKept(p, e);
    ConnectedKept(p, e);
  }

  ghost predicate IsRun(ps: seq<Pool>, es: seq<Event>, poolSize: int)
  {
    && |ps| == |es| + 1 && ps[0] == NewPool(poolSize)
    && forall i {:trigger es[i]} :: 0 <= i < |es| ==> Step(ps[i], es[i], ps[i + 1])
  }

  /**
   In every interleaving before Close: exact accounting within bounds, one owner for every entry, no idle
   entry without a connection.
   */
  lemma {:induction false} PoolExact(ps: seq<Pool>, es: seq<Event>, poolSize: int, i: nat)
    requires IsRun(ps, es, poolSize) && i < |ps|
    ensures Exact(ps[i]) && OneOwner(ps[i]) && Connected(ps[i]) && ps[i].size == if poolSize <= 0 then 32 else poolSize
  {
    if i > 0 {
      PoolExact(ps, es, poolSize, i - 1);
      assert Step(ps[i - 1], es[i - 1], ps[i]);
      SameSize(ps[i - 1], es[i - 1]);
      hide Exact, OneOwner, Connected, Step;
      InvKept(ps[i - 1], es[i - 1], ps[i]);
    }
  }

  /** No run takes the full-channel branch of putConn, receives a nil entry, or calls with one. */
  lemma DeadBranches(ps: seq<Pool>, es: seq<Event>, poolSize: int, i: nat)
    requires IsRun(ps, es, poolSize) && i < |es|
    ensures !Dead(es[i])
  {
    PoolExact(ps, es, poolSize, i);
    assert Step(ps[i], es[i], ps[i + 1]);
    hide Exact, OneOwner, Connected, Step, Dead;
    InvKept(ps[i], es[i], ps[i + 1]);
  }

  /** A call dials exactly when no dial error is remembered and the pool is below capacity; otherwise it polls. */
  lemma DialsBelowCapacity(ps: seq<Pool>, es: seq<Event>, poolSize: int, i: nat)
    requires IsRun(ps, es, poolSize) && i < |es|
    ensures es[i].DialOk? || es[i].DialError? ==>
            !ps[i].dialErr && |ps[i].idle| + Total(ps[i].callers, Claims) < ps[i].size
    ensures es[i].NoDial? ==> ps[i].dialErr || |ps[i].idle| + Total(ps[i].callers, Claims) == ps[i].size
    ensures es[i].NoDial? || es[i].DialError? ==>
            es[i].i < |ps[i].callers| && ps[i + 1] == ps[i].(callers := ps[i].callers[es[i].i := Waiting],
                                                             dialErr := ps[i].dialErr || es[i].DialError?)
  {
    PoolExact(ps, es, poolSize, i);
    assert Step(ps[i], es[i], ps[i + 1]);
    hide OneOwner, Connected, Total, IsRun;
  }

  // ---------------------------------------------------------------- the sticky dial error

  lemma StickyStep(p: Pool, e: Event, p': Pool)
    requires Inv(p) && Step(p, e, p') && p.dialErr
    ensures p'.dialErr && p'.created <= p.created
    ensures p'.created < p.created <==> e.Drop?
  {
    hide Inv;
    InvKept(p, e, p');
  }

  /** After one dial error nothing is ever dialled again: `created` can only fall. */
  lemma {:induction false} StickyRun(ps: seq<Pool>, es: seq<Event>, poolSize: int, i: nat, j: nat)
    requires IsRun(ps, es, poolSize) && i <= j < |ps| && ps[i].dialErr
    ensures ps[j].dialErr && ps[j].created <= ps[i].created
  {
    if i < j {
      StickyRun(ps, es, poolSize, i, j - 1);
      PoolExact(ps, es, poolSize, j - 1);
      assert Step(ps[j - 1], es[j - 1], ps[j]);
      hide Exact, OneOwner, Connected, Step;
      StickyStep(ps[j - 1], es[j - 1], ps[j]);
    }
  }

  // ---------------------------------------------------------------- when no call is served any more

  predicate Serving(p: Pool) { exists k :: 0 <= k < |p.callers| && p.callers[k].Using? }

  /** Dialling is over, nothing is idle and nobody holds a connection that could come back. */
  predicate Dry(p: Pool) { p.dialErr && p.idle == [] && !Serving(p) }

  /** Any way the pool may go on. */
  ghost predicate Path(ps: seq<Pool>, es: seq<Event>, p: Pool)
  {
    && |ps| == |es| + 1 && ps[0] == p
    && forall i {:trigger es[i]} :: 0 <= i < |es| ==> Step(ps[i], es[i], ps[i + 1])
  }

  ghost predicate CanServe(p: Pool) { exists ps, es :: Path(ps, es, p) && Serving(ps[|es|]) }

  lemma DryStays(p: Pool, e: Event, p': Pool)
    requires Dry(p) && Step(p, e, p')
    ensures Dry(p')
  {
  }

  lemma {:induction false} DryForGood(ps: seq<Pool>, es: seq<Event>, p: Pool, i: nat)
    requires Path(ps, es, p) && Dry(p) && i < |ps|
    ensures Dry(ps[i])
  {
    hide Dry, Step;
    if i > 0 {
      DryForGood(ps, es, p, i - 1);
      assert Step(ps[i - 1], es[i - 1], ps[i]);
      DryStays(ps[i - 1], es[i - 1], ps[i]);
    }
  }

  /** One more event in front of a path. */
  lemma Before(p: Pool, e: Event, p': Pool)
    requires Step(p, e, p') && CanServe(p')
    ensures CanServe(p)
  {
    hide Step, Serving;
    var ps, es :| Path(ps, es, p') && Serving(ps[|es|]);
    var qs, fs := [p] + ps, [e] + es;
    forall i | 0 <= i < |fs| ensures Step(qs[i], fs[i], qs[i + 1]) {
      if i > 0 { assert fs[i] == es[i - 1] && qs[i] == ps[i - 1] && qs[i + 1] == ps[i]; }
    }
    assert Path(qs, fs, p) && qs[|fs|] == ps[|es|];
  }

  lemma ServingNow(p: Pool)
    requires Serving(p)
    ensures CanServe(p)
  {
    hide Serving;
    var none: seq<Event> := [];
    assert Path([p], none, p);
  }

  /** A new call takes an idle connection, or dials. */
  lemma NewCallServed(p: Pool)
    requires CanDial(p) || (p.idle != [] && p.idle[0] in p.live)
    ensures CanServe(p)
  {
    var p1 := Apply(p, Arrive);
    var n := |p.callers|;
    if CanDial(p) {
      var c := Unused(p.used);
      var p2 := Apply(p1, DialOk(n, c));
      assert p2.callers[n] == Using(c);
      ServingNow(p2);
      Before(p1, DialOk(n, c), p2);
    } else {
      var p2 := Apply(p1, NoDial(n));
      var p3 := Apply(p2, Receive(n));
      assert p3.callers[n].Using?;
      ServingNow(p3);
      Before(p2, Receive(n), p3);
      Before(p1, NoDial(n), p2);
    }
    Before(p, Arrive, p1);
  }

  lemma {:induction false} SomeClaim(s: seq<Caller>)
    requires Total(s, Claims) > 0
    ensures exists k :: 0 <= k < |s| && Claims(s[k]) > 0
  {
    var n := |s| - 1;
    if Claims(s[n]) <= 0 {
      SomeClaim(s[..n]);
      var k :| 0 <= k < n && Claims(s[..n][k]) > 0;
      assert Claims(s[k]) > 0;
    }
  }

  /** A pool that is not dry can serve a call, if need be after a failed call has been uncounted. */
  lemma NotDryServes(p: Pool)
    requires Inv(p) && p.size > 0 && !Dry(p)
    ensures CanServe(p)
  {
    hide CanServe, OneOwner;
    if Serving(p) {
      ServingNow(p);
    } else if CanDial(p) || p.idle != [] {
      NewCallServed(p);
    } else {
      SomeClaim(p.callers);
      var k :| 0 <= k < |p.callers| && Claims(p.callers[k]) > 0;
      var p' := Apply(p, Drop(k));
      NewCallServed(p');
      Before(p, Drop(k), p');
    }
  }

  lemma {:induction false} RunSize(ps: seq<Pool>, es: seq<Event>, poolSize: int, i: nat)
    requires IsRun(ps, es, poolSize) && i < |ps|
    ensures ps[i].size > 0
  {
    if i > 0 {
      RunSize(ps, es, poolSize, i - 1);
      assert Step(ps[i - 1], es[i - 1], ps[i]);
    }
  }

  /**
   In every reachable state: no call will ever be served again, whatever happens, if and only if a dial error
   is remembered, nothing is idle and no call holds a working connection.
   */
  lemma StarvedIffDry(ps: seq<Pool>, es: seq<Event>, poolSize: int, i: nat)
    requires IsRun(ps, es, poolSize) && i < |ps|
    ensures !CanServe(ps[i]) <==> Dry(ps[i])
  {
    PoolExact(ps, es, poolSize, i);
    RunSize(ps, es, poolSize, i);
    hide IsRun, Inv, Exact, OneOwner, Connected;
    if Dry(ps[i]) && CanServe(ps[i]) {
      var qs, fs :| Path(qs, fs, ps[i]) && Serving(qs[|fs|]);
      DryForGood(qs, fs, ps[i], |fs|);
      assert false;
    }
    if !Dry(ps[i]) {
      assert Inv(ps[i]);
      NotDryServes(ps[i]);
    }
  }

  ghost predicate RunsDry(ps: seq<Pool>, es: seq<Event>, poolSize: int) { IsRun(ps, es, poolSize) && Dry(ps[|es|]) }

  /** For every pool size one failed dial of the first call is enough. */
  lemma FirstDialFails(poolSize: int)
    ensures exists ps, es :: RunsDry(ps, es, poolSize)
  {
    var p0 := NewPool(poolSize);
    var p1 := Apply(p0, Arrive);
    var p2 := Apply(p1, DialError(0));
    assert RunsDry([p0, p1, p2], [Arrive, DialError(0)], poolSize);
  }
}
