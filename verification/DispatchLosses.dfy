/** When an ordered run loses a reply: exactly when a result is checked before `doWork` has stored the response. */
module DispatchLosses {
  import opened Bytes
  import opened Dispatch
  import opened DispatchInv
  import opened DispatchRuns
  import opened DispatchMatching

  /** A job popped for a result and not yet checked belongs to the result's channel and is not done. */
  ghost predicate HeldOk(inbound: map<Rid, Return>, jobs: map<Id, Job>)
  {
    forall rid :: rid in inbound && inbound[rid].at.Holding? ==> HeldOne(inbound[rid], jobs)
  }

  ghost predicate HeldOne(r: Return, jobs: map<Id, Job>)
    requires r.at.Holding?
  {
    r.at.job in jobs && KeyOf(jobs[r.at.job]) == KeyOfResult(r.result) && jobs[r.at.job].status != DONE
  }

  ghost predicate Undone(chans: map<ChanKey, seq<Id>>, jobs: map<Id, Job>)
  {
    forall k, id :: id in Get(chans, k) ==> id in jobs && jobs[id].status != DONE
  }

  /** A job that was written to its worker has been started. */
  ghost predicate Started(tasks: map<Id, Task>, sent: map<ChanKey, seq<Id>>, jobs: map<Id, Job>)
  {
    && (forall id :: id in tasks && (tasks[id] == Writing || tasks[id] == Storing) ==>
        id in jobs && jobs[id].status != INIT)
    && (forall k, id :: id in Get(sent, k) ==> id in jobs && jobs[id].status != INIT)
  }

  ghost predicate LossInv(s: State)
  {
    HeldOk(s.inbound, s.jobs) && Undone(s.chans, s.jobs) && Started(s.tasks, s.sent, s.jobs)
  }

  // ---------------------------------------------------------------- what changes jobs

  /** The job keeps its channel and stays undone. */
  predicate Keeps(j: Job, j': Job)
  {
    KeyOf(j') == KeyOf(j) && (j'.status == DONE ==> j.status == DONE) && (j'.status == INIT ==> j.status == INIT)
  }

  lemma JobMoves(s: State, id: Id, j': Job)
    requires LossInv(s) && (id in s.jobs ==> Keeps(s.jobs[id], j'))
    ensures HeldOk(s.inbound, s.jobs[id := j']) && Undone(s.chans, s.jobs[id := j'])
            && Started(s.tasks, s.sent, s.jobs[id := j'])
  {
    hide KeyOf, KeyOfResult, Get;
  }

  /** A held job is in no channel and held by no other result. */
  lemma HeldAlone(s: State, rid: Rid)
    requires Placed(s) && rid in s.inbound && s.inbound[rid].at.Holding?
    ensures var id := s.inbound[rid].at.job;
            && (forall k :: id !in Get(s.chans, k))
            && (forall r :: r in s.inbound && r != rid && s.inbound[r].at.Holding? ==> s.inbound[r].at.job != id)
  {
    var id := s.inbound[rid].at.job;
    assert Is(s.place, id, InReturn(rid));
    forall k ensures id !in Get(s.chans, k) { assert id in Get(s.chans, k) ==> Is(s.place, id, InChannel(k)); }
    forall r | r in s.inbound && r != rid && s.inbound[r].at.Holding? ensures s.inbound[r].at.job != id {
      assert Is(s.place, s.inbound[r].at.job, InReturn(r));
    }
  }

  lemma CompleteKeeps(s: State, rid: Rid)
    requires Placed(s) && LossInv(s) && Checking(s, rid)
             && Completes(s.jobs[s.inbound[rid].at.job], s.inbound[rid].result)
    ensures LossInv(OnComplete(s, rid))
  {
    HeldAlone(s, rid);
    hide Placed, Get, KeyOf, KeyOfResult, Completes;
  }

  lemma PopKeeps(s: State, rid: Rid)
    requires Placed(s) && PlaceJobs(s.place, s.jobs) && LossInv(s)
    requires rid in s.inbound && Get(s.chans, KeyOfResult(s.inbound[rid].result)) != []
    ensures LossInv(OnPop(s, rid))
  {
    var r := s.inbound[rid].result;
    var k := KeyOfResult(r);
    var ch := Get(s.chans, k);
    var s' := OnPop(s, rid);
    assert ch[0] in ch && Is(s.place, ch[0], InChannel(k));
    hide Placed, PlaceJobs, Started, Add, KeyOf, KeyOfResult;
    forall x, id | id in Get(s'.chans, x)
      ensures id in s.jobs && s.jobs[id].status != DONE
    {
      assert id in Get(s.chans, x);
    }
  }

  lemma PushKeeps(s: State, id: Id)
    requires LossInv(s) && At(s, id, Pushing) && id in s.jobs && s.jobs[id].status == INIT
    ensures LossInv(OnPush(s, id))
  {
    var s' := OnPush(s, id);
    hide KeyOf, KeyOfResult;
    forall x, i | i in Get(s'.chans, x)
      ensures i in s.jobs && s.jobs[i].status != DONE
    {
      assert i in Get(s.chans, x) || i == id;
    }
  }

  lemma SendKeeps(s: State, id: Id, delivered: bool)
    requires LossInv(s) && At(s, id, Writing) && id in s.jobs
    ensures LossInv(OnSend(s, id, delivered))
  {
    var s' := OnSend(s, id, delivered);
    hide KeyOf, KeyOfResult;
    forall x, i | i in Get(s'.sent, x)
      ensures i in s.jobs && s.jobs[i].status != INIT
    {
      assert i in Get(s.sent, x) || i == id;
    }
  }

  lemma WorkKeeps(s: State, e: Event)
    requires TaskJobs(s.tasks, s.jobs, s.place) && LossInv(s) && Enabled(s, e) && (e.Pick? || e.Begin? || e.Store?)
    ensures LossInv(Apply(s, e))
  {
    hide Enabled, Apply, TaskJobs, HeldOk, Undone, Get, Keeps;
    var s' := Apply(s, e);
    NewJob(s, e);
    NewTask(s, e);
    JobMoves(s, e.id, s'.jobs[e.id]);
  }

  lemma NewJob(s: State, e: Event)
    requires TaskJobs(s.tasks, s.jobs, s.place) && Enabled(s, e) && (e.Pick? || e.Begin? || e.Store?)
    ensures var s' := Apply(s, e);
            && e.id in s'.jobs && (e.id in s.jobs ==> Keeps(s.jobs[e.id], s'.jobs[e.id]))
            && s'.jobs == s.jobs[e.id := s'.jobs[e.id]]
  {
    hide Get;
  }

  lemma NewTask(s: State, e: Event)
    requires Enabled(s, e) && (e.Pick? || e.Begin? || e.Store?)
    ensures var s' := Apply(s, e);
            && s'.inbound == s.inbound && s'.chans == s.chans && s'.sent == s.sent
            && (forall id :: id in s'.tasks && id != e.id ==> id in s.tasks && s'.tasks[id] == s.tasks[id])
            && (e.id in s'.tasks && s'.tasks[e.id] != Pushing ==> e.id in s'.jobs && s'.jobs[e.id].status == DOING)
  {
    hide Get, KeyOf;
  }

  /** Events that touch neither jobs nor channels. */
  predicate Quiet(e: Event)
  {
    || (Front(e) && !e.Pick?) || e.Skip? || e.Arrive? || e.PopTimeout? || e.Reject? || e.Reply?
  }

  lemma QuietFront(s: State, e: Event)
    requires Enabled(s, e) && Front(e) && !e.Pick?
    ensures var s' := Apply(s, e); s'.jobs == s.jobs && s'.chans == s.chans && s'.sent == s.sent
  {
    hide Enabled, Say, Empty;
  }

  lemma QuietElse(s: State, e: Event)
    requires Enabled(s, e) && Quiet(e) && !Front(e)
    ensures var s' := Apply(s, e); s'.jobs == s.jobs && s'.chans == s.chans && s'.sent == s.sent
  {
    hide Enabled, KeyOf, KeyOfResult, Get, Add, Say, Completes;
  }

  /** They hold no further job, and start no further task. */

  lemma QuietTasks(s: State, e: Event, id: Id)
    requires Enabled(s, e) && Quiet(e) && id in Apply(s, e).tasks && Apply(s, e).tasks[id] != Picking
    ensures id in s.tasks && s.tasks[id] == Apply(s, e).tasks[id]
  {
    hide Enabled, KeyOf, KeyOfResult, Get, Add, Say, Completes, Empty;
  }

  lemma QuietInbound(s: State, e: Event, rid: Rid)
    requires Enabled(s, e) && Quiet(e) && rid in Apply(s, e).inbound && Apply(s, e).inbound[rid].at.Holding?
    ensures rid in s.inbound && s.inbound[rid] == Apply(s, e).inbound[rid]
  {
    hide KeyOf, KeyOfResult, Get, Add, Say, Completes, Empty;
  }

  lemma QuietKeeps(s: State, e: Event)
    requires LossInv(s) && Enabled(s, e) && Quiet(e)
    ensures LossInv(Apply(s, e))
  {
    assert Front(e) ==> !e.Pick?;
    hide Enabled, Apply, Quiet, Front, Undone, HeldOne, Get;
    var s' := Apply(s, e);
    if Front(e) { QuietFront(s, e); } else { QuietElse(s, e); }
    forall id | id in s'.tasks && (s'.tasks[id] == Writing || s'.tasks[id] == Storing)
      ensures id in s.tasks && s.tasks[id] == s'.tasks[id]
    {
      QuietTasks(s, e, id);
    }
    forall rid | rid in s'.inbound && s'.inbound[rid].at.Holding? ensures HeldOne(s'.inbound[rid], s'.jobs) {
      QuietInbound(s, e, rid);
    }
  }

  lemma LossKept(s: State, e: Event)
    requires Inv(s) && LossInv(s) && Enabled(s, e)
    ensures LossInv(Apply(s, e))
  {
    hide LossInv, Placed, Answered, OwnJobs, PlaceJobs, Replies, Get, KeyOf, KeyOfResult, Completes;
    match e
    case Complete(rid) => CompleteKeeps(s, rid);
    case PopHead(rid) => PopKeeps(s, rid);
    case Push(id) => PushKeeps(s, id);
    case Send(id, d) => SendKeeps(s, id, d);
    case Pick(_, _) => WorkKeeps(s, e);
    case Begin(_) => WorkKeeps(s, e);
    case Store(_) => WorkKeeps(s, e);
    case _ => QuietKeeps(s, e);
  }

  lemma LossStart(ss: seq<State>, es: seq<Event>)
    requires IsRun(ss, es)
    ensures ss != [] && LossInv(ss[0])
  {
    hide Step;
  }

  lemma {:induction false} LossRun(ss: seq<State>, es: seq<Event>, i: nat)
    requires IsRun(ss, es) && i < |ss|
    ensures LossInv(ss[i])
  {
    hide IsRun, Inv, LossInv, Apply, Enabled;
    if i == 0 {
      LossStart(ss, es);
    } else {
      RunLength(ss, es);
      LossRun(ss, es, i - 1);
      RunInv(ss, es, i - 1);
      RunStep(ss, es, i - 1);
      LossKept(ss[i - 1], es[i - 1]);
    }
  }

  // ---------------------------------------------------------------- when a reply is lost

  lemma ArrivedIsSent(s: State, r: Return)
    requires Lanes(s) && Numbered(s, r)
    ensures r.result.jobId in Get(s.sent, KeyOfResult(r.result))
  {
    var k := KeyOfResult(r.result);
    assert Lane(Get(s.pushed, k), Get(s.sent, k), Get(s.arrived, k), Get(s.pops, k), Get(s.chans, k));
    hide KeyOfResult, PopJobs, PopResults, Get;
    assert Get(s.sent, k)[r.seqNo] == r.result.jobId;
  }

  /** A job that was popped for its result is the result's, started and not done. */
  lemma HeldIsDoing(s: State, rid: Rid, compute: (ChanKey, Bytes) -> Bytes)
    requires OrderInv(s, compute) && LossInv(s) && rid in s.inbound && s.inbound[rid].at.Holding?
    ensures var r := s.inbound[rid];
            && r.at.job == r.result.jobId && r.at.job in s.jobs && s.jobs[r.at.job].status == DOING
            && KeyOf(s.jobs[r.at.job]) == KeyOfResult(r.result)
  {
    var r := s.inbound[rid];
    assert Numbered(s, r);
    ArrivedIsSent(s, r);
    hide Lanes, Turn, AllNumbered, Computed, Undone, Get, KeyOf, KeyOfResult, Lane;
    assert HeldOne(r, s.jobs);
  }

  lemma HeldIsOwn(s: State, rid: Rid, compute: (ChanKey, Bytes) -> Bytes)
    requires Inv(s) && OrderInv(s, compute) && Checking(s, rid)
    ensures var r, id := s.inbound[rid].result, s.inbound[rid].at.job;
            id in s.requests && OwnJob(s.requests[id], s.jobs[id]) && OwnResult(s.requests, r, compute)
  {
    hide Placed, TaskJobs, PlaceJobs, Replies, Answered, Lanes, Turn, AllNumbered, OwnJob, OwnResult;
  }

  lemma PassesNow(s: State, rid: Rid, compute: (ChanKey, Bytes) -> Bytes)
    requires Checking(s, rid)
    requires var r, id := s.inbound[rid].result, s.inbound[rid].at.job;
             && id == r.jobId && s.jobs[id].status == DOING && KeyOf(s.jobs[id]) == KeyOfResult(r)
             && id in s.requests && OwnJob(s.requests[id], s.jobs[id]) && OwnResult(s.requests, r, compute)
    ensures var j := s.jobs[s.inbound[rid].at.job]; Completes(j, s.inbound[rid].result) <==> j.response.Response?
  {
  }

  /**
   In an ordered run a result passes the tests of `returnData` if and only if the response of the job it
   popped has been stored.
   */
  lemma PassesIffStored(ss: seq<State>, es: seq<Event>, i: nat, rid: Rid, compute: (ChanKey, Bytes) -> Bytes)
    requires OrderedRun(ss, es, compute) && i < |ss| && Checking(ss[i], rid)
    ensures var s := ss[i]; var j := s.jobs[s.inbound[rid].at.job];
            Completes(j, s.inbound[rid].result) <==> j.response.Response?
  {
    assert IsRun(ss, es);
    assert Checking(ss[i], rid) ==> rid in ss[i].inbound && ss[i].inbound[rid].at.Holding?;
    hide OrderedRun, IsRun, Inv, LossInv, OrderInv, Checking, Completes;
    OrderedInv(ss, es, i, compute);
    RunInv(ss, es, i);
    LossRun(ss, es, i);
    HeldIsDoing(ss[i], rid, compute);
    HeldIsOwn(ss[i], rid, compute);
    PassesNow(ss[i], rid, compute);
  }

  /** So an ordered run drops a result exactly when it is checked before the store. */
  lemma LostIffEarly(ss: seq<State>, es: seq<Event>, i: nat, compute: (ChanKey, Bytes) -> Bytes)
    requires OrderedRun(ss, es, compute) && i < |es| && (es[i].Complete? || es[i].Reject?)
    ensures Checking(ss[i], es[i].rid)
    ensures es[i].Reject? <==> ss[i].jobs[ss[i].inbound[es[i].rid].at.job].response == NoResponse
  {
    OrderedStep(ss, es, i, compute);
    hide OrderedRun, IsRun, Completes;
    PassesIffStored(ss, es, i, es[i].rid, compute);
  }
}
