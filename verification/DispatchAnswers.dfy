/** What each client is told, in which order frames are taken, and how much the broker holds at most. */
module DispatchAnswers {
  import opened Bytes
  import opened Dispatch
  import opened DispatchInv
  import opened DispatchRuns

  // ---------------------------------------------------------------- the ret of a job

  /** A job has no ret before it is done; a job being replied has the ret of the result that holds it. */
  ghost predicate RetInv(jobs: map<Id, Job>, inbound: map<Rid, Return>)
  {
    && (forall id :: id in jobs && jobs[id].status != DONE ==> jobs[id].ret == [])
    && (forall rid :: rid in inbound && inbound[rid].at.Replying? ==>
        inbound[rid].at.job in jobs && jobs[inbound[rid].at.job].ret == inbound[rid].result.ret)
  }

  lemma CompleteRet(s: State, rid: Rid)
    requires Placed(s) && RetInv(s.jobs, s.inbound) && Checking(s, rid)
             && Completes(s.jobs[s.inbound[rid].at.job], s.inbound[rid].result)
    ensures var s' := OnComplete(s, rid); RetInv(s'.jobs, s'.inbound)
  {
    var id, ret := s.inbound[rid].at.job, s.inbound[rid].result.ret;
    assert Is(s.place, id, InReturn(rid));
    assert s.jobs[id].ret + ret == ret;
    forall r | r in s.inbound && r != rid && s.inbound[r].at.Replying? ensures s.inbound[r].at.job != id {
      assert Is(s.place, s.inbound[r].at.job, InReturn(r));
    }
    hide Placed;
  }

  lemma JobRet(s: State, e: Event)
    requires TaskJobs(s.tasks, s.jobs, s.place) && RetInv(s.jobs, s.inbound) && Enabled(s, e)
    requires e.Pick? || e.Begin? || e.Store?
    ensures var s' := Apply(s, e); RetInv(s'.jobs, s'.inbound)
  {
    if e.Pick? { NotYetMade(s, e); }
    hide TaskJobs, Get, KeyOf, KeyOfResult;
  }

  lemma InboundRet(s: State, e: Event, rid: Rid)
    requires Enabled(s, e) && !ChangesJob(e) && rid in Apply(s, e).inbound && Apply(s, e).inbound[rid].at.Replying?
    ensures rid in s.inbound && s.inbound[rid] == Apply(s, e).inbound[rid]
  {
    hide KeyOf, KeyOfResult, Get, Add, Say, Completes, Empty;
  }

  lemma OtherRet(s: State, e: Event)
    requires RetInv(s.jobs, s.inbound) && Enabled(s, e) && !ChangesJob(e)
    ensures var s' := Apply(s, e); RetInv(s'.jobs, s'.inbound)
  {
    hide Enabled, Apply, ChangesJob;
    SameJobs(s, e);
    var s' := Apply(s, e);
    forall rid | rid in s'.inbound && s'.inbound[rid].at.Replying?
      ensures s'.inbound[rid].at.job in s'.jobs && s'.jobs[s'.inbound[rid].at.job].ret == s'.inbound[rid].result.ret
    {
      InboundRet(s, e, rid);
    }
  }

  lemma RetKept(s: State, e: Event)
    requires Inv(s) && RetInv(s.jobs, s.inbound) && Enabled(s, e)
    ensures var s' := Apply(s, e); RetInv(s'.jobs, s'.inbound)
  {
    hide RetInv, Placed, Answered, OwnJobs, PlaceJobs, Replies, TaskJobs, Get, KeyOf, KeyOfResult, Completes;
    match e
    case Complete(rid) => CompleteRet(s, rid);
    case Pick(_, _) => JobRet(s, e);
    case Begin(_) => JobRet(s, e);
    case Store(_) => JobRet(s, e);
    case _ => OtherRet(s, e);
  }

  lemma RetStart(ss: seq<State>, es: seq<Event>)
    requires IsRun(ss, es)
    ensures ss != [] && RetInv(ss[0].jobs, ss[0].inbound)
  {
    hide Step;
  }

  lemma {:induction false} RetRun(ss: seq<State>, es: seq<Event>, i: nat)
    requires IsRun(ss, es) && i < |ss|
    ensures RetInv(ss[i].jobs, ss[i].inbound)
  {
    hide IsRun, Inv, RetInv, Apply, Enabled;
    if i == 0 {
      RetStart(ss, es);
    } else {
      RunLength(ss, es);
      RetRun(ss, es, i - 1);
      RunInv(ss, es, i - 1);
      RunStep(ss, es, i - 1);
      RetKept(ss[i - 1], es[i - 1]);
    }
  }

  // ---------------------------------------------------------------- what clients are told

  /** The frame an event writes, to the client of which request. */
  ghost predicate Tells(s: State, delivered: bool, s': State, id: Id, frame: Frame)
  {
    s'.answers == if delivered then s.answers + [Answer(id, frame)] else s.answers
  }

  lemma RefuseTells(s: State, e: Event, s': State)
    requires Step(s, e, s') && e.Refuse?
    ensures e.req.handle == [] || e.req.params == [] ==> Tells(s, e.delivered, s', e.id, Error)
    ensures !(e.req.handle == [] || e.req.params == []) ==>
            Tells(s, e.delivered, s', e.id, RateLimit) && |s.pool| >= 1024
  {
  }

  lemma GiveUpTells(s: State, e: Event, s': State)
    requires Step(s, e, s') && (e.NoWorker? || e.PushTimeout?)
    ensures Tells(s, e.delivered, s', e.id, CantDo)
  {
  }

  lemma ReplyTells(s: State, e: Event, s': State)
    requires Inv(s) && RetInv(s.jobs, s.inbound) && Step(s, e, s') && e.Reply?
    ensures var id, r := s.inbound[e.rid].at.job, s.inbound[e.rid].result;
            && id in s.requests
            && Tells(s, e.delivered, s', id, ReturnData(s.requests[id].handle, s.requests[id].params, r.ret))
  {
    hide Placed, Answered, TaskJobs, PlaceJobs;
    var id := s.inbound[e.rid].at.job;
    assert Replied(s.jobs, id) && OwnJob(s.requests[id], s.jobs[id]);
  }

  /**
   In every run and whatever the interleaving: a frame with an empty handle or no parameters is answered with
   an error, one that finds 1024 frames waiting with a rate limit, one that finds no worker or no room in the
   worker's channel with "can't do", and one whose result passed the tests with its own handle and parameters
   and that result's ret. No other event writes to a client, and a frame the connection does not take is no answer.
   */
  lemma ToldWhat(ss: seq<State>, es: seq<Event>, i: nat)
    requires IsRun(ss, es) && i < |es|
    ensures |ss| == |es| + 1
    ensures var s, e, s' := ss[i], es[i], ss[i + 1];
            match e
            case Refuse(id, q, _) =>
              if q.handle == [] || q.params == [] then Tells(s, e.delivered, s', id, Error)
              else Tells(s, e.delivered, s', id, RateLimit) && |s.pool| >= 1024
            case NoWorker(id, _) => Tells(s, e.delivered, s', id, CantDo)
            case PushTimeout(id, _) => Tells(s, e.delivered, s', id, CantDo)
            case Reply(rid, _) =>
              && rid in s.inbound && s.inbound[rid].at.Replying? && s.inbound[rid].at.job in s.requests
              && var q := s.requests[s.inbound[rid].at.job];
                 Tells(s, e.delivered, s', s.inbound[rid].at.job,
                       ReturnData(q.handle, q.params, s.inbound[rid].result.ret))
            case _ => s'.answers == s.answers
  {
    RunLength(ss, es);
    RunStep(ss, es, i);
    RunInv(ss, es, i);
    RetRun(ss, es, i);
    ReplyIs(ss[i], es[i]);
    hide IsRun, Inv, RetInv, Enabled, Apply, Tells;
    var s, e, s' := ss[i], es[i], ss[i + 1];
    if e.Refuse? { RefuseTells(s, e, s'); }
    else if e.NoWorker? || e.PushTimeout? { GiveUpTells(s, e, s'); }
    else if e.Reply? { ReplyTells(s, e, s'); }
    else { SilentEvents(s, e); }
  }

  lemma ReplyIs(s: State, e: Event)
    requires Enabled(s, e)
    ensures e.Reply? ==> e.rid in s.inbound && s.inbound[e.rid].at.Replying?
  {
    hide Completes, Get;
  }

  // ---------------------------------------------------------------- first in, first out

  function AcceptedIds(es: seq<Event>): seq<Id>
  {
    if es == [] then [] else
      var e := es[|es| - 1];
      AcceptedIds(es[..|es| - 1]) + if e.Accept? then [e.id] else []
  }

  function TakenIds(es: seq<Event>): seq<Id>
  {
    if es == [] then [] else
      var e := es[|es| - 1];
      TakenIds(es[..|es| - 1]) + if e.Take? then [e.id] else []
  }

  lemma PoolStep(s: State, e: Event)
    requires Enabled(s, e)
    ensures var s' := Apply(s, e);
            if e.Accept? then s'.pool == s.pool + [e.id]
            else if e.Take? then s.pool == [e.id] + s'.pool
            else s'.pool == s.pool
  {
    hide KeyOf, KeyOfResult, Get, Add, Say, Completes, Empty;
  }

  /** The dispatch pool takes frames up in the order they were accepted. */
  lemma {:induction false} PoolFifo(ss: seq<State>, es: seq<Event>, i: nat)
    requires IsRun(ss, es) && i < |ss|
    ensures i <= |es| && AcceptedIds(es[..i]) == TakenIds(es[..i]) + ss[i].pool
  {
    hide Step;
    RunLength(ss, es);
    if i > 0 {
      PoolFifo(ss, es, i - 1);
      RunStep(ss, es, i - 1);
      PoolUnfold(es, i);
      hide IsRun, AcceptedIds, TakenIds;
      PoolNow(ss[i - 1], es[i - 1], ss[i]);
      PoolMoves(AcceptedIds(es[..i - 1]), TakenIds(es[..i - 1]), es[i - 1], ss[i - 1].pool, ss[i].pool);
    }
  }

  lemma PoolNow(s: State, e: Event, s': State)
    requires Step(s, e, s')
    ensures if e.Accept? then s'.pool == s.pool + [e.id]
            else if e.Take? then s.pool == [e.id] + s'.pool
            else s'.pool == s.pool
  {
    PoolStep(s, e);
    hide Enabled, Apply;
  }

  lemma PoolUnfold(es: seq<Event>, i: nat)
    requires 0 < i <= |es|
    ensures AcceptedIds(es[..i]) == AcceptedIds(es[..i - 1]) + if es[i - 1].Accept? then [es[i - 1].id] else []
    ensures TakenIds(es[..i]) == TakenIds(es[..i - 1]) + if es[i - 1].Take? then [es[i - 1].id] else []
  {
    assert es[..i][..i - 1] == es[..i - 1];
  }

  lemma PoolMoves(a: seq<Id>, t: seq<Id>, e: Event, pool: seq<Id>, pool': seq<Id>)
    requires a == t + pool
    requires if e.Accept? then pool' == pool + [e.id] else if e.Take? then pool == [e.id] + pool' else pool' == pool
    ensures a + (if e.Accept? then [e.id] else []) == t + (if e.Take? then [e.id] else []) + pool'
  {
  }

  // ---------------------------------------------------------------- bounds

  /** At most 1024 frames wait, at most 512 are being dispatched, at most 1024 jobs are in a channel. */
  ghost predicate Bounds(s: State)
  {
    |s.pool| <= 1024 && |s.tasks| <= 512 && forall k :: |Get(s.chans, k)| <= 1024
  }

  lemma TaskCount<V>(m: map<Id, V>, id: Id, v: V)
    ensures |m[id := v]| <= |m| + 1 && (id in m ==> |m[id := v]| == |m|) && |m - {id}| <= |m|
  {
    assert m[id := v].Keys == m.Keys + {id};
    assert (m - {id}).Keys == m.Keys - {id};
    if id in m { assert m.Keys + {id} == m.Keys; }
  }

  lemma TasksBound(s: State, e: Event)
    requires Enabled(s, e) && |s.tasks| <= 512
    ensures |Apply(s, e).tasks| <= 512
  {
    hide Get, Add, KeyOf, KeyOfResult, Say, Completes, Empty;
    if Front(e) || Working(e) {
      TaskCount(s.tasks, e.id, Picking);
      TaskCount(s.tasks, e.id, Pushing);
      TaskCount(s.tasks, e.id, Starting);
      TaskCount(s.tasks, e.id, Writing);
      TaskCount(s.tasks, e.id, Storing);
    }
  }

  lemma ChansBound(s: State, e: Event, k: ChanKey)
    requires Enabled(s, e) && |Get(s.chans, k)| <= 1024
    ensures |Get(Apply(s, e).chans, k)| <= 1024
  {
    hide Say, Completes, Empty;
  }

  lemma BoundsKept(s: State, e: Event)
    requires Enabled(s, e) && Bounds(s)
    ensures Bounds(Apply(s, e))
  {
    PoolBound(s, e);
    hide Apply, Enabled, Get;
    TasksBound(s, e);
    forall k ensures |Get(Apply(s, e).chans, k)| <= 1024 { ChansBound(s, e, k); }
  }

  lemma PoolBound(s: State, e: Event)
    requires Enabled(s, e) && |s.pool| <= 1024
    ensures |Apply(s, e).pool| <= 1024
  {
    PoolStep(s, e);
    if e.Accept? { AcceptRoom(s, e); }
    hide Apply, Enabled;
  }

  lemma AcceptRoom(s: State, e: Event)
    requires Enabled(s, e) && e.Accept?
    ensures |s.pool| < 1024
  {
  }

  lemma BoundsStart(ss: seq<State>, es: seq<Event>)
    requires IsRun(ss, es)
    ensures ss != [] && Bounds(ss[0])
  {
    hide Step;
  }

  lemma {:induction false} RunBounds(ss: seq<State>, es: seq<Event>, i: nat)
    requires IsRun(ss, es) && i < |ss|
    ensures Bounds(ss[i])
  {
    hide IsRun, Bounds, Apply, Enabled;
    if i == 0 {
      BoundsStart(ss, es);
    } else {
      RunLength(ss, es);
      RunBounds(ss, es, i - 1);
      RunStep(ss, es, i - 1);
      BoundsKept(ss[i - 1], es[i - 1]);
    }
  }

  /**
   * The bounds are exact: a new frame is either accepted or refused and never both, and it is accepted if and only
   * if it names a function, carries parameters and fewer than 1024 frames wait. Below the other two bounds a frame
   * is taken up, and a job is pushed.
   */
  lemma BoundsExact(s: State, id: Id, q: Request, told: bool)
    ensures id !in s.requests ==>
      && (Enabled(s, Accept(id, q)) <==> q.handle != [] && q.params != [] && |s.pool| < 1024)
      && (Enabled(s, Refuse(id, q, told)) <==> !Enabled(s, Accept(id, q)))
    ensures s.pool != [] && s.pool[0] == id && id in s.requests ==> (Enabled(s, Take(id)) <==> |s.tasks| < 512)
    ensures At(s, id, Pushing) && id in s.jobs ==>
      (Enabled(s, Push(id)) <==> |Get(s.chans, KeyOf(s.jobs[id]))| < 1024)
  {
  }
}
