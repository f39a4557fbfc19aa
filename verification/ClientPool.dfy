/**
 The client connection pool: calls borrow a client from a buffered channel or dial a new one while
 fewer than `poolSize` exist. Each lock section and each channel operation is one event.
 */
module ClientPool {
  import opened Totals
  import opened Ownership

  /** Where a `Do` call stands. */
  datatype Caller =
    | Asking                 // at the start of getOrCreate
    | Dialling               // `created` was raised for it
    | DialFailed             // the dial failed; `created` not yet lowered
    | Waiting                // receiving from the channel
    | FoundDead(c: Cid)      // received a client without a connection; `created` not yet lowered
    | Using(c: Cid)
    | Putting(c: Cid)        // put found the client alive
    | Discarding(c: Cid)     // put found it dead, or the channel full; `created` not yet lowered
    | Finished

  /** `alive` is the set of clients whose connection is up; any of them may drop or reconnect at any time. */
  datatype Pool = Pool(size: nat, created: int, idle: seq<Cid>, alive: set<Cid>, callers: seq<Caller>, used: set<Cid>)

  /** A pool size that is not positive becomes 32. */
  function NewPool(poolSize: int): Pool { Pool(if poolSize <= 0 then 32 else poolSize, 0, [], {}, [], {}) }

  datatype Event =
    | Arrive                          // a new call of Do
    | Claim(i: nat)                   // created < poolSize: raise it
    | NoClaim(i: nat)
    | DialOk(i: nat, c: Cid)
    | DialError(i: nat)
    | Unclaim(i: nat)                 // lower `created` after a failed dial
    | Receive(i: nat)
    | Bury(i: nat)                    // lower `created` for a dead client, close it, ask again
    | Return(i: nat)                  // the call is done; put looks at the connection
    | Send(i: nat)                    // the channel takes the client
    | SendFull(i: nat)                // it is full: close the client
    | Drop(i: nat)                    // lower `created` for it
    | Flip(c: Cid)                    // a connection drops or comes back

  predicate Is(p: Pool, i: nat) { i < |p.callers| }

  predicate Enabled(p: Pool, e: Event)
  {
    match e
    case Arrive => true
    case Claim(i) => Is(p, i) && p.callers[i] == Asking && p.created < p.size
    case NoClaim(i) => Is(p, i) && p.callers[i] == Asking && p.created >= p.size
    case DialOk(i, c) => Is(p, i) && p.callers[i] == Dialling && c !in p.used
    case DialError(i) => Is(p, i) && p.callers[i] == Dialling
    case Unclaim(i) => Is(p, i) && p.callers[i] == DialFailed
    case Receive(i) => Is(p, i) && p.callers[i] == Waiting && p.idle != []
    case Bury(i) => Is(p, i) && p.callers[i].FoundDead?
    case Return(i) => Is(p, i) && p.callers[i].Using?
    case Send(i) => Is(p, i) && p.callers[i].Putting? && |p.idle| < p.size
    case SendFull(i) => Is(p, i) && p.callers[i].Putting? && |p.idle| >= p.size
    case Drop(i) => Is(p, i) && p.callers[i].Discarding?
    case Flip(c) => true
  }

  function Lower(created: int): int { if created > 0 then created - 1 else created }

  function Apply(p: Pool, e: Event): Pool
    requires Enabled(p, e)
  {
    match e
    case Arrive => p.(callers := p.callers + [Asking])
    case Claim(i) => p.(created := p.created + 1, callers := p.callers[i := Dialling])
    case NoClaim(i) => p.(callers := p.callers[i := Waiting])
    case DialOk(i, c) => p.(callers := p.callers[i := Using(c)], alive := p.alive + {c}, used := p.used + {c})
    case DialError(i) => p.(callers := p.callers[i := DialFailed])
    case Unclaim(i) => p.(created := p.created - 1, callers := p.callers[i := Waiting])
    case Receive(i) => (
      var c := p.idle[0];
      p.(idle := p.idle[1..], callers := p.callers[i := if c in p.alive then Using(c) else FoundDead(c)]))
    case Bury(i) => p.(created := Lower(p.created), callers := p.callers[i := Asking])
    case Return(i) => (
      var c := p.callers[i].c;
      p.(callers := p.callers[i := if c in p.alive then Putting(c) else Discarding(c)]))
    case Send(i) => p.(idle := p.idle + [p.callers[i].c], callers := p.callers[i := Finished])
    case SendFull(i) => p.(callers := p.callers[i := Discarding(p.callers[i].c)], alive := p.alive - {p.callers[i].c})
    case Drop(i) => p.(created := Lower(p.created), callers := p.callers[i := Finished])
    case Flip(c) => p.(alive := if c in p.alive then p.alive - {c} else p.alive + {c})
  }

  // ---------------------------------------------------------------- accounting

  /** Callers that account for one unit of `created`: dialling, holding a client, or about to lower the count. */
  function Claims(c: Caller): int { if c.Asking? || c.Waiting? || c.Finished? then 0 else 1 }

  ghost predicate Exact(p: Pool)
  {
    && p.created == |p.idle| + Total(p.callers, Claims)
    && 0 <= p.created <= p.size
  }

  function Holding(c: Caller): Hold
  {
    if c.FoundDead? || c.Using? || c.Putting? || c.Discarding? then Client(c.c) else Nothing
  }

  /** Every client is idle once, or held by one caller. */
  ghost predicate OneOwner(p: Pool) { Owned(p.idle, p.callers, Holding, p.used) }

  /** A caller that moves changes its claim and the idle clients as the count says. */
  lemma ClaimMoves(p: Pool, i: nat, c: Caller, created: int, idle: seq<Cid>)
    requires Exact(p) && Is(p, i) && created - |idle| - Claims(c) == p.created - |p.idle| - Claims(p.callers[i])
    ensures created == |idle| + Total(p.callers[i := c], Claims)
  {
    TotalSet(p.callers, i, c, Claims);
  }

  /** Who holds a claim finds `created` above zero. */
  lemma ClaimCounts(p: Pool, i: nat)
    requires Exact(p) && Is(p, i)
    ensures p.created >= |p.idle| + Claims(p.callers[i])
  {
    TotalAtLeast(p.callers, i, Claims);
  }

  lemma NotFull(p: Pool, e: Event)
    requires Exact(p) && Enabled(p, e)
    ensures !e.SendFull?
  {
    if e.SendFull? { ClaimCounts(p, e.i); }
  }

  lemma ExactKept(p: Pool, e: Event)
    requires Exact(p) && Enabled(p, e) && !e.SendFull?
    ensures Exact(Apply(p, e))
  {
    if e.Arrive? {
      TotalPush(p.callers, Asking, Claims);
    } else if !e.Flip? {
      ClaimCounts(p, e.i);
      hide Total;
      var p' := Apply(p, e);
      ClaimMoves(p, e.i, p'.callers[e.i], p'.created, p'.idle);
    }
  }

  lemma OneOwnerKept(p: Pool, e: Event)
    requires OneOwner(p) && Enabled(p, e)
    ensures OneOwner(Apply(p, e))
  {
    hide Owned;
    match e
    case Arrive => Joins(p.idle, p.callers, Holding, p.used, Asking);
    case Flip(_) =>
    case DialOk(i, c) => TakeNew(p.idle, p.callers, Holding, p.used, i, Using(c), c);
    case Receive(i) => TakeHead(p.idle, p.callers, Holding, p.used, i, Apply(p, e).callers[i]);
    case Send(i) => GiveBack(p.idle, p.callers, Holding, p.used, i, Finished);
    case _ => MoveOn(p.idle, p.callers, Holding, p.used, e.i, Apply(p, e).callers[e.i]);
  }

  lemma SameSize(p: Pool, e: Event)
    requires Enabled(p, e)
    ensures Apply(p, e).size == p.size
  {
  }

  predicate Step(p: Pool, e: Event, p': Pool) { Enabled(p, e) && p' == Apply(p, e) }

  ghost predicate IsRun(ps: seq<Pool>, es: seq<Event>, poolSize: int)
  {
    && |ps| == |es| + 1 && ps[0] == NewPool(poolSize)
    && forall i {:trigger es[i]} :: 0 <= i < |es| ==> Step(ps[i], es[i], ps[i + 1])
  }

  /** In every interleaving before Close: exact accounting within bounds, and one owner for every client. */
  lemma {:induction false} PoolExact(ps: seq<Pool>, es: seq<Event>, poolSize: int, i: nat)
    requires IsRun(ps, es, poolSize) && i < |ps|
    ensures Exact(ps[i]) && OneOwner(ps[i]) && ps[i].size == if poolSize <= 0 then 32 else poolSize
  {
    if i == 0 {
    } else {
      PoolExact(ps, es, poolSize, i - 1);
      assert Step(ps[i - 1], es[i - 1], ps[i]);
      SameSize(ps[i - 1], es[i - 1]);
      hide Exact, OneOwner, Apply, Enabled;
      NotFull(ps[i - 1], es[i - 1]);
      ExactKept(ps[i - 1], es[i - 1]);
      OneOwnerKept(ps[i - 1], es[i - 1]);
    }
  }

  /** The branch of `put` for a full channel is never taken, and no decrement finds `created` at zero. */
  lemma NeverFull(ps: seq<Pool>, es: seq<Event>, poolSize: int, i: nat)
    requires IsRun(ps, es, poolSize) && i < |es|
    ensures !es[i].SendFull?
    ensures es[i].Bury? || es[i].Drop? || es[i].Unclaim? ==> ps[i].created > 0
  {
    PoolExact(ps, es, poolSize, i);
    assert Step(ps[i], es[i], ps[i + 1]);
    hide OneOwner, Total, IsRun;
    NotFull(ps[i], es[i]);
    if !es[i].Arrive? && !es[i].Flip? { ClaimCounts(ps[i], es[i].i); }
  }

  /**
   A call dials only below capacity and waits only at capacity, and only clients without a connection are
   discarded.
   */
  lemma DialsBelowCapacity(ps: seq<Pool>, es: seq<Event>, poolSize: int, i: nat)
    requires IsRun(ps, es, poolSize) && i < |es|
    ensures |ps| == |es| + 1
    ensures es[i].Claim? ==> |ps[i].idle| + Total(ps[i].callers, Claims) < ps[i].size
    ensures es[i].NoClaim? ==> |ps[i].idle| + Total(ps[i].callers, Claims) == ps[i].size
    ensures es[i].Receive? ==>
            es[i].i < |ps[i + 1].callers| && (ps[i + 1].callers[es[i].i].FoundDead? <==> ps[i].idle[0] !in ps[i].alive)
    ensures es[i].Return? ==>
            es[i].i < |ps[i + 1].callers| && (ps[i + 1].callers[es[i].i].Discarding? <==>
              ps[i].callers[es[i].i].c !in ps[i].alive)
  {
    PoolExact(ps, es, poolSize, i);
    assert Step(ps[i], es[i], ps[i + 1]);
    hide OneOwner, Total, IsRun;
  }

  // ---------------------------------------------------------------- calls that wait for nobody

  /** A caller that may yet bring a client to the channel, or dial one, without a new call arriving. */
  predicate Active(c: Caller) { c.Asking? || c.Dialling? || c.FoundDead? || c.Using? || c.Putting? }

  /** Nothing is idle and nobody is left who could put a client back. */
  predicate Deserted(p: Pool) { p.idle == [] && forall k :: 0 <= k < |p.callers| ==> !Active(p.callers[k]) }

  /** A way the pool may go on without a new call. */
  ghost predicate Path(ps: seq<Pool>, es: seq<Event>, p: Pool)
  {
    && |ps| == |es| + 1 && ps[0] == p
    && forall i {:trigger es[i]} :: 0 <= i < |es| ==> Step(ps[i], es[i], ps[i + 1]) && !es[i].Arrive?
  }

  predicate Served(p: Pool, w: nat) { w < |p.callers| && p.callers[w].Using? }

  ghost predicate CanServe(p: Pool, w: nat) { exists ps, es :: Path(ps, es, p) && Served(ps[|es|], w) }

  lemma DesertedStays(p: Pool, e: Event, p': Pool)
    requires Deserted(p) && Step(p, e, p') && !e.Arrive?
    ensures Deserted(p')
  {
  }

  lemma {:induction false} DesertedForGood(ps: seq<Pool>, es: seq<Event>, p: Pool, i: nat)
    requires Path(ps, es, p) && Deserted(p) && i < |ps|
    ensures Deserted(ps[i])
  {
    hide Deserted, Step;
    if i > 0 {
      DesertedForGood(ps, es, p, i - 1);
      assert Step(ps[i - 1], es[i - 1], ps[i]);
      DesertedStays(ps[i - 1], es[i - 1], ps[i]);
    }
  }

  /** One more event in front of a path. */
  lemma Before(p: Pool, e: Event, w: nat)
    requires Enabled(p, e) && !e.Arrive? && CanServe(Apply(p, e), w)
    ensures CanServe(p, w)
  {
    hide Enabled, Apply;
    var p' := Apply(p, e);
    var ps, es :| Path(ps, es, p') && Served(ps[|es|], w);
    var qs, fs := [p] + ps, [e] + es;
    forall i | 0 <= i < |fs| ensures Step(qs[i], fs[i], qs[i + 1]) && !fs[i].Arrive? {
      if i > 0 { assert fs[i] == es[i - 1] && qs[i] == ps[i - 1] && qs[i + 1] == ps[i]; }
    }
    assert Path(qs, fs, p) && qs[|fs|] == ps[|es|];
  }

  lemma ServedNow(p: Pool, w: nat)
    requires Served(p, w)
    ensures CanServe(p, w)
  {
    var none: seq<Event> := [];
    assert Path([p], none, p);
  }

  /** A call that asks below capacity dials. */
  lemma AskerServed(p: Pool, w: nat)
    requires Is(p, w) && p.callers[w] == Asking && p.created < p.size
    ensures CanServe(p, w)
  {
    var c := Unused(p.used);
    var p1 := Apply(p, Claim(w));
    var p2 := Apply(p1, DialOk(w, c));
    ServedNow(p2, w);
    hide CanServe;
    Before(p1, DialOk(w, c), w);
    Before(p, Claim(w), w);
  }

  /** A waiting call takes an idle client, or buries it and dials. */
  lemma IdleServes(p: Pool, w: nat)
    requires Exact(p) && Is(p, w) && p.callers[w] == Waiting && p.idle != []
    ensures CanServe(p, w)
  {
    TotalNonNegative(p.callers, Claims);
    var p1 := Apply(p, Receive(w));
    if p.idle[0] in p.alive {
      ServedNow(p1, w);
    } else {
      var p2 := Apply(p1, Bury(w));
      AskerServed(p2, w);
      hide CanServe;
      Before(p1, Bury(w), w);
    }
    hide CanServe;
    Before(p, Receive(w), w);
  }

  lemma PutterServes(p: Pool, w: nat, k: nat)
    requires Exact(p) && Is(p, w) && p.callers[w] == Waiting && Is(p, k) && p.callers[k].Putting?
    ensures CanServe(p, w)
  {
    TotalAtLeast(p.callers, k, Claims);
    ExactKept(p, Send(k));
    var p1 := Apply(p, Send(k));
    IdleServes(p1, w);
    hide CanServe;
    Before(p, Send(k), w);
  }

  lemma UserServes(p: Pool, w: nat, k: nat)
    requires Exact(p) && Is(p, w) && p.callers[w] == Waiting && Is(p, k) && p.callers[k].Using?
    ensures CanServe(p, w)
  {
    var c := p.callers[k].c;
    if c in p.alive {
      ExactKept(p, Return(k));
      PutterServes(Apply(p, Return(k)), w, k);
      hide CanServe;
      Before(p, Return(k), w);
    } else {
      ExactKept(p, Flip(c));
      var p1 := Apply(p, Flip(c));
      ExactKept(p1, Return(k));
      PutterServes(Apply(p1, Return(k)), w, k);
      hide CanServe;
      Before(p1, Return(k), w);
      Before(p, Flip(c), w);
    }
  }

  lemma DiallerServes(p: Pool, w: nat, k: nat)
    requires Exact(p) && Is(p, w) && p.callers[w] == Waiting && Is(p, k) && p.callers[k] == Dialling
    ensures CanServe(p, w)
  {
    var c := Unused(p.used);
    ExactKept(p, DialOk(k, c));
    UserServes(Apply(p, DialOk(k, c)), w, k);
    hide CanServe;
    Before(p, DialOk(k, c), w);
  }

  lemma BelowCapacityServes(p: Pool, w: nat, k: nat)
    requires Exact(p) && Is(p, w) && p.callers[w] == Waiting && Is(p, k) && p.callers[k] == Asking && p.created < p.size
    ensures CanServe(p, w)
  {
    ExactKept(p, Claim(k));
    DiallerServes(Apply(p, Claim(k)), w, k);
    hide CanServe;
    Before(p, Claim(k), w);
  }

  lemma BurierServes(p: Pool, w: nat, k: nat)
    requires Exact(p) && Is(p, w) && p.callers[w] == Waiting && Is(p, k) && p.callers[k].FoundDead?
    ensures CanServe(p, w)
  {
    TotalAtLeast(p.callers, k, Claims);
    ExactKept(p, Bury(k));
    BelowCapacityServes(Apply(p, Bury(k)), w, k);
    hide CanServe;
    Before(p, Bury(k), w);
  }

  lemma {:induction false} SomeClaim(s: seq<Caller>)
    requires Total(s, Claims) > 0
    ensures exists k :: 0 <= k < |s| && Claims(s[k]) > 0
  {
    var n := |s| - 1;
    if Claims(s[n]) <= 0 {
      SomeClaim(s[..n]);
      var k :| 0 <= k < n && Claims(s[..n][k]) > 0;
      assert Claims(s[k]) > 0;
    }
  }

  /** At capacity with nothing idle somebody holds a claim: it serves, or gives way to the asker. */
  lemma AskerServes(p: Pool, w: nat, k: nat)
    requires Exact(p) && p.size > 0 && Is(p, w) && p.callers[w] == Waiting && Is(p, k) && p.callers[k] == Asking
    ensures CanServe(p, w)
  {
    if p.created < p.size {
      BelowCapacityServes(p, w, k);
    } else if p.idle != [] {
      IdleServes(p, w);
    } else {
      SomeClaim(p.callers);
      var m :| 0 <= m < |p.callers| && Claims(p.callers[m]) > 0;
      ClaimServes(p, w, k, m);
    }
  }

  lemma ClaimServes(p: Pool, w: nat, k: nat, m: nat)
    requires Exact(p) && p.size > 0 && Is(p, w) && p.callers[w] == Waiting && Is(p, k) && p.callers[k] == Asking
    requires Is(p, m) && Claims(p.callers[m]) > 0
    ensures CanServe(p, w)
  {
    hide CanServe, Exact;
    match p.callers[m] {
      case Dialling => DiallerServes(p, w, m);
      case FoundDead(_) => BurierServes(p, w, m);
      case Using(_) => UserServes(p, w, m);
      case Putting(_) => PutterServes(p, w, m);
      case DialFailed => GivesWay(p, Unclaim(m), w, k, m);
      case Discarding(_) => GivesWay(p, Drop(m), w, k, m);
      case _ =>
    }
  }

  lemma GivesWay(p: Pool, e: Event, w: nat, k: nat, m: nat)
    requires Exact(p) && Is(p, w) && p.callers[w] == Waiting && Is(p, k) && p.callers[k] == Asking && Is(p, m)
    requires (p.callers[m] == DialFailed && e == Unclaim(m)) || (p.callers[m].Discarding? && e == Drop(m))
    ensures CanServe(p, w)
  {
    TotalAtLeast(p.callers, m, Claims);
    TotalNonNegative(p.callers, Claims);
    ExactKept(p, e);
    BelowCapacityServes(Apply(p, e), w, k);
    hide CanServe;
    Before(p, e, w);
  }

  lemma NotDesertedServes(p: Pool, w: nat)
    requires Exact(p) && p.size > 0 && Is(p, w) && p.callers[w] == Waiting && !Deserted(p)
    ensures CanServe(p, w)
  {
    hide CanServe, Exact;
    if p.idle != [] {
      IdleServes(p, w);
    } else {
      var k :| 0 <= k < |p.callers| && Active(p.callers[k]);
      match p.callers[k] {
        case Asking => AskerServes(p, w, k);
        case Dialling => DiallerServes(p, w, k);
        case FoundDead(_) => BurierServes(p, w, k);
        case Using(_) => UserServes(p, w, k);
        case Putting(_) => PutterServes(p, w, k);
        case _ =>
      }
    }
  }

  lemma {:induction false} RunSize(ps: seq<Pool>, es: seq<Event>, poolSize: int, i: nat)
    requires IsRun(ps, es, poolSize) && i < |ps|
    ensures ps[i].size == NewPool(poolSize).size > 0
  {
    if i > 0 {
      RunSize(ps, es, poolSize, i - 1);
      assert Step(ps[i - 1], es[i - 1], ps[i]);
    }
  }

  /**
   In every reachable state: a waiting call can never be served without a new call, whatever happens, if and
   only if nothing is idle and every other call waits too, has ended, or only has its claim left to drop.
   */
  lemma StrandedIff(ps: seq<Pool>, es: seq<Event>, poolSize: int, i: nat, w: nat)
    requires IsRun(ps, es, poolSize) && i < |ps| && Is(ps[i], w) && ps[i].callers[w] == Waiting
    ensures !CanServe(ps[i], w) <==> Deserted(ps[i])
  {
    PoolExact(ps, es, poolSize, i);
    RunSize(ps, es, poolSize, i);
    hide IsRun, Exact, OneOwner;
    if Deserted(ps[i]) && CanServe(ps[i], w) {
      var qs, fs :| Path(qs, fs, ps[i]) && Served(qs[|fs|], w);
      DesertedForGood(qs, fs, ps[i], |fs|);
      assert false;
    }
    if !Deserted(ps[i]) { NotDesertedServes(ps[i], w); }
  }

  /** A call waits below capacity, and no continuation without a new call serves it. */
  ghost predicate Strands(ps: seq<Pool>, es: seq<Event>, poolSize: int, w: nat)
  {
    && IsRun(ps, es, poolSize) && var p := ps[|es|];
    Is(p, w) && p.callers[w] == Waiting && p.created < p.size && Deserted(p)
  }

  lemma Extend(ps: seq<Pool>, es: seq<Event>, poolSize: int, e: Event) returns (ps': seq<Pool>, es': seq<Event>)
    requires IsRun(ps, es, poolSize) && |ps| == |es| + 1 && Enabled(ps[|es|], e)
    ensures IsRun(ps', es', poolSize) && |ps'| == |es'| + 1 && ps'[|es'|] == Apply(ps[|es|], e)
  {
    hide Enabled, Apply;
    ps', es' := ps + [Apply(ps[|es|], e)], es + [e];
    forall i {:trigger es'[i]} | 0 <= i < |es'| ensures Step(ps'[i], es'[i], ps'[i + 1]) {
      if i < |es| { assert es'[i] == es[i] && Step(ps[i], es[i], ps[i + 1]); }
    }
  }

  lemma Begun(poolSize: int) returns (ps: seq<Pool>, es: seq<Event>)
    ensures IsRun(ps, es, poolSize) && |ps| == |es| + 1 && ps[|es|] == NewPool(poolSize)
  {
    ps, es := [NewPool(poolSize)], [];
  }

  /** For every pool size one failed dial of the first call is enough. */
  lemma FirstDialFails(poolSize: int)
    ensures exists ps, es :: Strands(ps, es, poolSize, 0)
  {
    hide IsRun;
    var ps, es := Begun(poolSize);
    ps, es := Extend(ps, es, poolSize, Arrive);
    ps, es := Extend(ps, es, poolSize, Claim(0));
    ps, es := Extend(ps, es, poolSize, DialError(0));
    ps, es := Extend(ps, es, poolSize, Unclaim(0));
    assert Strands(ps, es, poolSize, 0);
  }

  /** With one connection: a call waits for it, it dies in use, and put wakes nobody. */
  lemma OnlyClientDies()
    ensures exists ps, es :: Strands(ps, es, 1, 1)
  {
    var ps, es := DiesInUse();
    hide IsRun;
    ps, es := Extend(ps, es, 1, Return(0));
    ps, es := Extend(ps, es, 1, Drop(0));
    assert Strands(ps, es, 1, 1);
  }

  lemma DiesInUse() returns (ps: seq<Pool>, es: seq<Event>)
    ensures IsRun(ps, es, 1) && |ps| == |es| + 1 && ps[|es|] == Pool(1, 1, [], {}, [Using(0), Waiting], {0})
  {
    hide IsRun;
    ps, es := Begun(1);
    ps, es := Extend(ps, es, 1, Arrive);
    ps, es := Extend(ps, es, 1, Arrive);
    ps, es := Extend(ps, es, 1, Claim(0));
    ps, es := Extend(ps, es, 1, NoClaim(1));
    ps, es := Extend(ps, es, 1, DialOk(0, 0));
    ps, es := Extend(ps, es, 1, Flip(0));
  }
}
