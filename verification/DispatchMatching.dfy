/**
 Results are matched with jobs by queue position. This module says exactly when that matching is
 right, shows a run in which it is wrong, and proves that an ordering discipline makes it right.
 */
module DispatchMatching {
  import opened Bytes
  import opened Dispatch
  import opened DispatchInv
  import opened DispatchRuns

  function PopJobs(ps: seq<Pop>): (r: seq<Id>)
    ensures |r| == |ps|
  {
    seq(|ps|, i requires 0 <= i < |ps| => ps[i].job)
  }

  function PopResults(ps: seq<Pop>): (r: seq<Id>)
    ensures |r| == |ps|
  {
    seq(|ps|, i requires 0 <= i < |ps| => ps[i].resultId)
  }

  // ---------------------------------------------------------------- exactly when the matching is right

  /** What was pushed on a channel is what was popped from it, in that order, and then what it still holds. */
  ghost predicate Fifo(s: State)
  {
    forall k :: Get(s.pushed, k) == PopJobs(Get(s.pops, k)) + Get(s.chans, k)
  }

  lemma FifoPush(s: State, id: Id)
    requires Fifo(s) && id in s.jobs
    ensures Fifo(OnPush(s, id))
  {
    hide PopJobs, KeyOf;
    var s', k := OnPush(s, id), KeyOf(s.jobs[id]);
    forall l ensures Get(s'.pushed, l) == PopJobs(Get(s'.pops, l)) + Get(s'.chans, l) {
      assert Get(s.pushed, l) == PopJobs(Get(s.pops, l)) + Get(s.chans, l);
    }
  }

  lemma PopMoves(pushed: seq<Id>, ps: seq<Pop>, ch: seq<Id>, x: Id)
    requires pushed == PopJobs(ps) + ch && ch != []
    ensures pushed == PopJobs(ps + [Pop(x, ch[0])]) + ch[1..]
  {
    assert PopJobs(ps + [Pop(x, ch[0])]) == PopJobs(ps) + [ch[0]];
    assert ch == [ch[0]] + ch[1..];
  }

  lemma FifoPop(s: State, rid: Rid)
    requires Fifo(s) && rid in s.inbound && Get(s.chans, KeyOfResult(s.inbound[rid].result)) != []
    ensures Fifo(OnPop(s, rid))
  {
    hide PopJobs, KeyOfResult;
    var s', r := OnPop(s, rid), s.inbound[rid].result;
    var k := KeyOfResult(r);
    PopMoves(Get(s.pushed, k), Get(s.pops, k), Get(s.chans, k), r.jobId);
    forall l ensures Get(s'.pushed, l) == PopJobs(Get(s'.pops, l)) + Get(s'.chans, l) {
      assert Get(s.pushed, l) == PopJobs(Get(s.pops, l)) + Get(s.chans, l);
    }
  }

  lemma FifoKept(s: State, e: Event)
    requires Fifo(s) && Enabled(s, e)
    ensures Fifo(Apply(s, e))
  {
    hide OnPush, OnPop, Get, Add, PopJobs, KeyOf, KeyOfResult, Completes;
    if e.Push? { FifoPush(s, e.id); }
    else if e.PopHead? { FifoPop(s, e.rid); }
  }

  lemma {:induction false} RunFifo(ss: seq<State>, es: seq<Event>, i: nat)
    requires IsRun(ss, es) && i < |ss|
    ensures Fifo(ss[i])
  {
    if i == 0 {
    } else {
      hide Fifo, Apply, Enabled, IsRun;
      RunLength(ss, es);
      RunFifo(ss, es, i - 1);
      RunStep(ss, es, i - 1);
      FifoKept(ss[i - 1], es[i - 1]);
    }
  }

  /** Every job popped for a result is the job that result is about. */
  ghost predicate Matched(ps: seq<Pop>) { forall n :: 0 <= n < |ps| ==> ps[n].resultId == ps[n].job }

  /**
   In every run, the results routed to a channel met their own jobs if and only if they were
   routed in the order in which the jobs were pushed there.
   */
  lemma MatchedIffPushOrder(ss: seq<State>, es: seq<Event>, i: nat, k: ChanKey)
    requires IsRun(ss, es) && i < |ss|
    ensures Matched(Get(ss[i].pops, k)) <==> PopResults(Get(ss[i].pops, k)) <= Get(ss[i].pushed, k)
  {
    hide IsRun;
    RunFifo(ss, es, i);
    var ps, pushed := Get(ss[i].pops, k), Get(ss[i].pushed, k);
    assert pushed == PopJobs(ps) + Get(ss[i].chans, k);
    if PopResults(ps) <= pushed {
      forall n | 0 <= n < |ps| ensures ps[n].resultId == ps[n].job {
        assert PopResults(ps)[n] == pushed[n] == PopJobs(ps)[n];
      }
    }
    if Matched(ps) { assert PopResults(ps) == PopJobs(ps); }
  }

  // ---------------------------------------------------------------- a discipline that makes it right

  /** `t` has been pushed on `k` but not yet written to the worker. */
  predicate Between(tasks: map<Id, Task>, jobs: map<Id, Job>, k: ChanKey, t: Id)
  {
    t in tasks && (tasks[t] == Starting || tasks[t] == Writing) && t in jobs && KeyOf(jobs[t]) == k
  }

  /** The worker's answer to the next job it was sent on this channel, computed from that job's own parameters. */
  predicate NextAnswer(s: State, r: Result, compute: (ChanKey, Bytes) -> Bytes)
  {
    var k := KeyOfResult(r);
    var n := |Get(s.arrived, k)|;
    && n < |Get(s.sent, k)| && r.jobId == Get(s.sent, k)[n] && r.jobId in s.requests
    && r.paramsLen == |s.requests[r.jobId].params| && r.ret == compute(k, s.requests[r.jobId].params)
  }

  /**
   One push-then-send at a time per worker and function; no send refused; the worker answers every
   job in arrival order; results are routed in that order; a pop that finds a job does not time out.
   */
  ghost predicate Ordered(s: State, e: Event, compute: (ChanKey, Bytes) -> Bytes)
  {
    match e
    case Push(id) => id in s.jobs && forall t :: !Between(s.tasks, s.jobs, KeyOf(s.jobs[id]), t)
    case Send(_, delivered) => delivered
    case Arrive(_, r) => NextAnswer(s, r, compute)
    case PopHead(rid) => rid in s.inbound && s.inbound[rid].seqNo == |Get(s.pops, KeyOfResult(s.inbound[rid].result))|
    case PopTimeout(rid) => rid in s.inbound && Get(s.chans, KeyOfResult(s.inbound[rid].result)) == []
    case _ => true
  }

  ghost predicate OrderedRun(ss: seq<State>, es: seq<Event>, compute: (ChanKey, Bytes) -> Bytes)
  {
    IsRun(ss, es) && forall i {:trigger es[i]} :: 0 <= i < |es| ==> Ordered(ss[i], es[i], compute)
  }

  /** One channel's history: popped, then queued; sent in push order; answered in send order; routed in answer order. */
  ghost predicate Lane(pushed: seq<Id>, sent: seq<Id>, arrived: seq<Id>, pops: seq<Pop>, ch: seq<Id>)
  {
    && pushed == PopJobs(pops) + ch && sent <= pushed && |pushed| <= |sent| + 1
    && arrived <= sent && PopResults(pops) <= arrived
  }

  ghost predicate Lanes(s: State)
  {
    forall k :: Lane(Get(s.pushed, k), Get(s.sent, k), Get(s.arrived, k), Get(s.pops, k), Get(s.chans, k))
  }

  /** At most one job is between push and send, and it is the last one pushed. */
  ghost predicate Turn(tasks: map<Id, Task>, jobs: map<Id, Job>, pushed: map<ChanKey, seq<Id>>,
                       sent: map<ChanKey, seq<Id>>)
  {
    && (forall k, t :: Between(tasks, jobs, k, t) ==> Get(pushed, k) == Get(sent, k) + [t])
    && (forall k :: |Get(pushed, k)| > |Get(sent, k)| ==> Between(tasks, jobs, k, Get(pushed, k)[|Get(pushed, k)| - 1]))
  }

  /** A result knows its number among the results of its channel, and its job. */
  ghost predicate Numbered(s: State, r: Return)
  {
    var k := KeyOfResult(r.result);
    && r.seqNo < |Get(s.arrived, k)| && Get(s.arrived, k)[r.seqNo] == r.result.jobId
    && (r.at == Queued ==> r.seqNo >= |Get(s.pops, k)|)
    && (r.at != Queued ==> r.at.job == r.result.jobId)
  }

  ghost predicate AllNumbered(s: State)
  {
    && (forall rid :: rid in s.inbound ==> Numbered(s, s.inbound[rid]))
    && (forall a, b :: && a in s.inbound && b in s.inbound && a != b
                       && KeyOfResult(s.inbound[a].result) == KeyOfResult(s.inbound[b].result)
                       ==> s.inbound[a].seqNo != s.inbound[b].seqNo)
  }

  /** A result in hand was computed from its own job's parameters; so is what a finished job returns. */
  ghost predicate Computed(requests: map<Id, Request>, jobs: map<Id, Job>, inbound: map<Rid, Return>,
                           compute: (ChanKey, Bytes) -> Bytes)
  {
    && (forall rid :: rid in inbound ==> OwnResult(requests, inbound[rid].result, compute))
    && (forall id :: id in jobs ==> JobRet(jobs[id], compute))
  }

  ghost predicate OwnResult(requests: map<Id, Request>, r: Result, compute: (ChanKey, Bytes) -> Bytes)
  {
    && r.jobId in requests && r.paramsLen == |requests[r.jobId].params|
    && r.ret == compute(KeyOfResult(r), requests[r.jobId].params)
  }

  ghost predicate JobRet(j: Job, compute: (ChanKey, Bytes) -> Bytes)
  {
    if j.status == DONE then j.ret == compute(KeyOf(j), j.params) else j.ret == []
  }

  ghost predicate OrderInv(s: State, compute: (ChanKey, Bytes) -> Bytes)
  {
    && Lanes(s) && Turn(s.tasks, s.jobs, s.pushed, s.sent) && AllNumbered(s)
    && Computed(s.requests, s.jobs, s.inbound, compute)
  }

  // ---------------------------------------------------------------- lanes

  lemma LanePush(pushed: seq<Id>, sent: seq<Id>, arrived: seq<Id>, pops: seq<Pop>, ch: seq<Id>, id: Id)
    requires Lane(pushed, sent, arrived, pops, ch) && |pushed| == |sent|
    ensures Lane(pushed + [id], sent, arrived, pops, ch + [id])
  {
  }

  lemma LaneSend(pushed: seq<Id>, sent: seq<Id>, arrived: seq<Id>, pops: seq<Pop>, ch: seq<Id>, id: Id)
    requires Lane(pushed, sent, arrived, pops, ch) && pushed == sent + [id]
    ensures Lane(pushed, sent + [id], arrived, pops, ch)
  {
  }

  lemma LaneArrive(pushed: seq<Id>, sent: seq<Id>, arrived: seq<Id>, pops: seq<Pop>, ch: seq<Id>, id: Id)
    requires Lane(pushed, sent, arrived, pops, ch) && |arrived| < |sent| && id == sent[|arrived|]
    ensures Lane(pushed, sent, arrived + [id], pops, ch)
  {
  }

  lemma LanePop(pushed: seq<Id>, sent: seq<Id>, arrived: seq<Id>, pops: seq<Pop>, ch: seq<Id>, id: Id)
    requires Lane(pushed, sent, arrived, pops, ch) && ch != [] && |pops| < |arrived| && id == arrived[|pops|]
    ensures Lane(pushed, sent, arrived, pops + [Pop(id, ch[0])], ch[1..])
    ensures id == ch[0]
  {
    var pops' := pops + [Pop(id, ch[0])];
    assert PopJobs(pops') == PopJobs(pops) + [ch[0]];
    assert PopResults(pops') == PopResults(pops) + [id];
    assert pushed[|pops|] == ch[0];
  }

  lemma LanesKept(s: State, e: Event, compute: (ChanKey, Bytes) -> Bytes)
    requires OrderInv(s, compute) && Enabled(s, e) && Ordered(s, e, compute)
    ensures Lanes(Apply(s, e))
  {
    hide Lanes, Turn, AllNumbered, Computed, OnPush, OnSend, OnArrive, OnPop, Get, Add, KeyOf, KeyOfResult, Completes;
    if e.Push? { LanesPush(s, e.id); }
    else if e.Send? { LanesSend(s, e.id); }
    else if e.Arrive? { LanesArrive(s, e.rid, e.result, compute); }
    else if e.PopHead? { LanesPop(s, e.rid); }
    else { LanesElse(s, e); }
  }

  lemma LanesElse(s: State, e: Event)
    requires Lanes(s) && Enabled(s, e) && !e.Push? && !e.Send? && !e.Arrive? && !e.PopHead?
    ensures Lanes(Apply(s, e))
  {
    hide Enabled, Lane, Get, Add, KeyOf, KeyOfResult, Completes, Say;
  }

  lemma LanesPush(s: State, id: Id)
    requires Lanes(s) && Turn(s.tasks, s.jobs, s.pushed, s.sent) && id in s.jobs
    requires forall t :: !Between(s.tasks, s.jobs, KeyOf(s.jobs[id]), t)
    ensures Lanes(OnPush(s, id))
  {
    hide Lane, Between;
    var s', k := OnPush(s, id), KeyOf(s.jobs[id]);
    assert |Get(s.pushed, k)| <= |Get(s.sent, k)|;
    forall l ensures Lane(Get(s'.pushed, l), Get(s'.sent, l), Get(s'.arrived, l), Get(s'.pops, l), Get(s'.chans, l)) {
      assert Lane(Get(s.pushed, l), Get(s.sent, l), Get(s.arrived, l), Get(s.pops, l), Get(s.chans, l));
      if l == k {
        LaneLengths(s, k);
        LanePush(Get(s.pushed, k), Get(s.sent, k), Get(s.arrived, k), Get(s.pops, k), Get(s.chans, k), id);
      }
    }
  }

  lemma LaneLengths(s: State, k: ChanKey)
    requires Lanes(s)
    ensures |Get(s.pops, k)| <= |Get(s.arrived, k)| <= |Get(s.sent, k)| <= |Get(s.pushed, k)|
    ensures |Get(s.pushed, k)| == |Get(s.pops, k)| + |Get(s.chans, k)|
  {
    assert Lane(Get(s.pushed, k), Get(s.sent, k), Get(s.arrived, k), Get(s.pops, k), Get(s.chans, k));
  }

  lemma LanesSend(s: State, id: Id)
    requires Lanes(s) && Turn(s.tasks, s.jobs, s.pushed, s.sent) && At(s, id, Writing) && id in s.jobs
    ensures Lanes(OnSend(s, id, true))
  {
    hide Lane;
    var s', k := OnSend(s, id, true), KeyOf(s.jobs[id]);
    assert Between(s.tasks, s.jobs, k, id);
    forall l ensures Lane(Get(s'.pushed, l), Get(s'.sent, l), Get(s'.arrived, l), Get(s'.pops, l), Get(s'.chans, l)) {
      assert Lane(Get(s.pushed, l), Get(s.sent, l), Get(s.arrived, l), Get(s.pops, l), Get(s.chans, l));
      if l == k { LaneSend(Get(s.pushed, k), Get(s.sent, k), Get(s.arrived, k), Get(s.pops, k), Get(s.chans, k), id); }
    }
  }

  lemma LanesArrive(s: State, rid: Rid, r: Result, compute: (ChanKey, Bytes) -> Bytes)
    requires Lanes(s) && NextAnswer(s, r, compute)
    ensures Lanes(OnArrive(s, rid, r))
  {
    hide Lane;
    var s', k := OnArrive(s, rid, r), KeyOfResult(r);
    forall l ensures Lane(Get(s'.pushed, l), Get(s'.sent, l), Get(s'.arrived, l), Get(s'.pops, l), Get(s'.chans, l)) {
      assert Lane(Get(s.pushed, l), Get(s.sent, l), Get(s.arrived, l), Get(s.pops, l), Get(s.chans, l));
      if l == k {
        LaneArrive(Get(s.pushed, k), Get(s.sent, k), Get(s.arrived, k), Get(s.pops, k), Get(s.chans, k), r.jobId);
      }
    }
  }

  lemma LanesPop(s: State, rid: Rid)
    requires Lanes(s) && AllNumbered(s) && rid in s.inbound
    requires Get(s.chans, KeyOfResult(s.inbound[rid].result)) != []
    requires s.inbound[rid].seqNo == |Get(s.pops, KeyOfResult(s.inbound[rid].result))|
    ensures Lanes(OnPop(s, rid))
    ensures s.inbound[rid].result.jobId == Get(s.chans, KeyOfResult(s.inbound[rid].result))[0]
  {
    var s', r := OnPop(s, rid), s.inbound[rid].result;
    var k := KeyOfResult(r);
    assert Numbered(s, s.inbound[rid]);
    hide Lane, AllNumbered, Numbered, KeyOfResult;
    assert Lane(Get(s.pushed, k), Get(s.sent, k), Get(s.arrived, k), Get(s.pops, k), Get(s.chans, k));
    LanePop(Get(s.pushed, k), Get(s.sent, k), Get(s.arrived, k), Get(s.pops, k), Get(s.chans, k), r.jobId);
    forall l ensures Lane(Get(s'.pushed, l), Get(s'.sent, l), Get(s'.arrived, l), Get(s'.pops, l), Get(s'.chans, l)) {
      assert Lane(Get(s.pushed, l), Get(s.sent, l), Get(s.arrived, l), Get(s.pops, l), Get(s.chans, l));
    }
  }

  // ---------------------------------------------------------------- turns

  /** With no job between push and send, everything pushed on the channel has been sent. */
  lemma AllSent(s: State, k: ChanKey)
    requires Lanes(s) && Turn(s.tasks, s.jobs, s.pushed, s.sent)
    requires forall t :: !Between(s.tasks, s.jobs, k, t)
    ensures Get(s.pushed, k) == Get(s.sent, k)
  {
    hide Between;
    assert Lane(Get(s.pushed, k), Get(s.sent, k), Get(s.arrived, k), Get(s.pops, k), Get(s.chans, k));
  }

  /** A job pushed on a channel whose pushes have all been sent is the one between. */
  lemma TurnAdd(tasks: map<Id, Task>, jobs: map<Id, Job>, tasks': map<Id, Task>,
                pushed: map<ChanKey, seq<Id>>, sent: map<ChanKey, seq<Id>>, k: ChanKey, id: Id)
    requires Turn(tasks, jobs, pushed, sent) && Get(pushed, k) == Get(sent, k)
    requires forall l, t :: Between(tasks', jobs, l, t) <==> Between(tasks, jobs, l, t) || (l == k && t == id)
    requires forall t :: !Between(tasks, jobs, k, t)
    ensures Turn(tasks', jobs, Add(pushed, k, id), sent)
  {
    hide Between;
    var pushed' := Add(pushed, k, id);
    forall l
      ensures Get(pushed', l) == if l == k then Get(sent, k) + [id] else Get(pushed, l)
    {
      AddGet(pushed, k, id, l);
    }
    hide Get, Add;
    forall l, t | Between(tasks', jobs, l, t) ensures Get(pushed', l) == Get(sent, l) + [t] {
      assert l != k ==> Between(tasks, jobs, l, t);
    }
    forall l | |Get(pushed', l)| > |Get(sent, l)|
      ensures Between(tasks', jobs, l, Get(pushed', l)[|Get(pushed', l)| - 1])
    {
      if l != k { assert Between(tasks, jobs, l, Get(pushed, l)[|Get(pushed, l)| - 1]); }
    }
  }

  lemma AddGet(m: map<ChanKey, seq<Id>>, k: ChanKey, id: Id, l: ChanKey)
    ensures Get(Add(m, k, id), l) == if l == k then Get(m, k) + [id] else Get(m, l)
  {
  }

  lemma TurnPush(s: State, id: Id)
    requires Lanes(s) && Turn(s.tasks, s.jobs, s.pushed, s.sent) && At(s, id, Pushing) && id in s.jobs
    requires forall t :: !Between(s.tasks, s.jobs, KeyOf(s.jobs[id]), t)
    ensures var s' := OnPush(s, id); Turn(s'.tasks, s'.jobs, s'.pushed, s'.sent)
  {
    hide Turn, Lanes, Add, KeyOf;
    var k := KeyOf(s.jobs[id]);
    AllSent(s, k);
    TurnAdd(s.tasks, s.jobs, s.tasks[id := Starting], s.pushed, s.sent, k, id);
  }

  lemma TurnSend(s: State, id: Id)
    requires Turn(s.tasks, s.jobs, s.pushed, s.sent) && At(s, id, Writing) && id in s.jobs
    ensures var s' := OnSend(s, id, true); Turn(s'.tasks, s'.jobs, s'.pushed, s'.sent)
  {
    var s', k := OnSend(s, id, true), KeyOf(s.jobs[id]);
    assert Between(s.tasks, s.jobs, k, id);
    forall l, t | Between(s'.tasks, s'.jobs, l, t) ensures Get(s'.pushed, l) == Get(s'.sent, l) + [t] {
      assert Between(s.tasks, s.jobs, l, t);
      if l == k { assert false; }
    }
    forall l | |Get(s'.pushed, l)| > |Get(s'.sent, l)|
      ensures Between(s'.tasks, s'.jobs, l, Get(s'.pushed, l)[|Get(s'.pushed, l)| - 1])
    {
      if l != k { assert Between(s.tasks, s.jobs, l, Get(s.pushed, l)[|Get(s.pushed, l)| - 1]); }
    }
  }

  /** No other event changes who is between push and send. */
  lemma TurnElse(tasks: map<Id, Task>, jobs: map<Id, Job>, tasks': map<Id, Task>, jobs': map<Id, Job>,
                 pushed: map<ChanKey, seq<Id>>, sent: map<ChanKey, seq<Id>>)
    requires Turn(tasks, jobs, pushed, sent)
    requires forall k, t :: Between(tasks, jobs, k, t) <==> Between(tasks', jobs', k, t)
    ensures Turn(tasks', jobs', pushed, sent)
  {
    hide Between, Get;
  }

  /** Tables that differ at most at one job, which is not between push and send, or stays so. */
  lemma SameBetween(tasks: map<Id, Task>, jobs: map<Id, Job>, tasks': map<Id, Task>, jobs': map<Id, Job>, id: Id)
    requires Off(tasks, tasks', id) && Off(jobs, jobs', id)
    requires forall k :: Between(tasks, jobs, k, id) <==> Between(tasks', jobs', k, id)
    ensures forall k, t :: Between(tasks, jobs, k, t) <==> Between(tasks', jobs', k, t)
  {
  }

  lemma TurnOne(s: State, tasks': map<Id, Task>, jobs': map<Id, Job>, id: Id)
    requires Turn(s.tasks, s.jobs, s.pushed, s.sent) && Off(s.tasks, tasks', id) && Off(s.jobs, jobs', id)
    requires forall k :: Between(s.tasks, s.jobs, k, id) <==> Between(tasks', jobs', k, id)
    ensures Turn(tasks', jobs', s.pushed, s.sent)
  {
    hide Turn, Between, Off;
    SameBetween(s.tasks, s.jobs, tasks', jobs', id);
    TurnElse(s.tasks, s.jobs, tasks', jobs', s.pushed, s.sent);
  }

  lemma TakeIsNew(s: State)
    requires Placed(s) && JobsMatch(s) && s.pool != []
    ensures s.pool[0] !in s.tasks
  {
    InPoolHead(s);
  }

  lemma StartingIsInit(s: State, id: Id)
    requires JobsMatch(s) && At(s, id, Starting)
    ensures id in s.jobs && s.jobs[id].status == INIT
  {
  }

  /** One frame's task and job change. */
  lemma DispatchTouchesOne(s: State, e: Event)
    requires Enabled(s, e) && Dispatching(e)
    ensures var s' := Apply(s, e);
            Off(s.tasks, s'.tasks, e.id) && Off(s.jobs, s'.jobs, e.id) && s'.pushed == s.pushed && s'.sent == s.sent
  {
    hide Enabled, Get, Add, Say, KeyOf;
  }

  lemma DispatchKeepsBetween(s: State, e: Event, k: ChanKey)
    requires Enabled(s, e) && Dispatching(e) && (e.Take? ==> e.id !in s.tasks) && !e.Skip?
    ensures Between(s.tasks, s.jobs, k, e.id) <==> Between(Apply(s, e).tasks, Apply(s, e).jobs, k, e.id)
  {
    hide Get, Add, Say, Empty;
  }

  predicate Dispatching(e: Event)
  {
    e.Take? || e.NoWorker? || e.PushTimeout? || e.Pick? || e.Begin? || e.Skip? || e.Store?
  }

  lemma TurnDispatch(s: State, e: Event)
    requires Placed(s) && JobsMatch(s) && Turn(s.tasks, s.jobs, s.pushed, s.sent) && Enabled(s, e) && Dispatching(e)
    ensures var s' := Apply(s, e); Turn(s'.tasks, s'.jobs, s'.pushed, s'.sent)
  {
    if e.Take? { TakeIsNew(s); } else if e.Skip? { StartingIsInit(s, e.id); }
    hide Placed, JobsMatch, Turn, Apply, Between;
    DispatchTouchesOne(s, e);
    forall k ensures Between(s.tasks, s.jobs, k, e.id) <==> Between(Apply(s, e).tasks, Apply(s, e).jobs, k, e.id) {
      DispatchKeepsBetween(s, e, k);
    }
    TurnOne(s, Apply(s, e).tasks, Apply(s, e).jobs, e.id);
  }

  lemma TurnComplete(s: State, rid: Rid)
    requires Turn(s.tasks, s.jobs, s.pushed, s.sent) && Checking(s, rid)
    ensures var s' := OnComplete(s, rid); Turn(s'.tasks, s'.jobs, s'.pushed, s'.sent)
  {
    hide Turn;
    var s' := OnComplete(s, rid);
    SameBetween(s.tasks, s.jobs, s'.tasks, s'.jobs, s.inbound[rid].at.job);
    TurnElse(s.tasks, s.jobs, s'.tasks, s'.jobs, s.pushed, s.sent);
  }

  lemma TurnStays(s: State, e: Event)
    requires Enabled(s, e) && !Dispatching(e) && !e.Push? && !e.Send? && !e.Complete?
    ensures var s' := Apply(s, e);
            s'.tasks == s.tasks && s'.jobs == s.jobs && s'.pushed == s.pushed && s'.sent == s.sent
  {
    hide Enabled, Get, Add, Say, KeyOf, KeyOfResult, Completes;
  }

  lemma TurnKept(s: State, e: Event, compute: (ChanKey, Bytes) -> Bytes)
    requires Placed(s) && JobsMatch(s) && OrderInv(s, compute) && Enabled(s, e) && Ordered(s, e, compute)
    ensures var s' := Apply(s, e); Turn(s'.tasks, s'.jobs, s'.pushed, s'.sent)
  {
    hide Lanes, Turn, AllNumbered, Computed, Placed, JobsMatch, OnPush, OnSend, OnComplete, Get, KeyOf, Between,
         Completes;
    if e.Push? { TurnPush(s, e.id); }
    else if e.Send? { TurnSend(s, e.id); }
    else if e.Complete? { TurnComplete(s, e.rid); }
    else if Dispatching(e) { TurnDispatch(s, e); }
    else { TurnStays(s, e); }
  }

  // ---------------------------------------------------------------- numbering

  lemma NumberedArriveOne(s: State, rid: Rid, r: Result, a: Rid)
    requires Lanes(s) && AllNumbered(s) && rid !in s.inbound && (a == rid || a in s.inbound)
    ensures var s' := OnArrive(s, rid, r); a in s'.inbound && Numbered(s', s'.inbound[a])
  {
    LaneLengths(s, KeyOfResult(r));
    if a != rid { assert Numbered(s, s.inbound[a]); }
    hide Lanes, AllNumbered, Numbered, Get, Add, KeyOfResult;
    var s' := OnArrive(s, rid, r);
    if a == rid { NumberedNew(s, s', r); } else { NumberedStill(s, s', s.inbound[a], KeyOfResult(r), r.jobId); }
  }

  lemma NumberedNew(s: State, s': State, r: Result)
    requires var k := KeyOfResult(r);
             s'.arrived == Add(s.arrived, k, r.jobId) && s'.pops == s.pops && |Get(s.pops, k)| <= |Get(s.arrived, k)|
    ensures Numbered(s', Return(r, |Get(s.arrived, KeyOfResult(r))|, Queued))
  {
    hide KeyOfResult;
  }

  lemma NumberedStill(s: State, s': State, x: Return, k: ChanKey, id: Id)
    requires Numbered(s, x) && s'.arrived == Add(s.arrived, k, id) && s'.pops == s.pops
    ensures Numbered(s', x)
  {
    hide KeyOfResult;
  }

  lemma NumberedArrive(s: State, rid: Rid, r: Result)
    requires Lanes(s) && AllNumbered(s) && rid !in s.inbound
    ensures AllNumbered(OnArrive(s, rid, r))
  {
    var s', k := OnArrive(s, rid, r), KeyOfResult(r);
    NewNumber(s, k);
    assert s'.inbound == s.inbound[rid := Return(r, |Get(s.arrived, k)|, Queued)];
    hide Lanes, OnArrive, Numbered, Get;
    forall a | a in s'.inbound ensures Numbered(s', s'.inbound[a]) { NumberedArriveOne(s, rid, r, a); }
  }

  /** The next number of a channel is not in use. */
  lemma NewNumber(s: State, k: ChanKey)
    requires AllNumbered(s)
    ensures forall a :: a in s.inbound && KeyOfResult(s.inbound[a].result) == k ==>
            s.inbound[a].seqNo != |Get(s.arrived, k)|
  {
    forall a | a in s.inbound && KeyOfResult(s.inbound[a].result) == k
      ensures s.inbound[a].seqNo != |Get(s.arrived, k)|
    {
      assert Numbered(s, s.inbound[a]);
    }
  }

  lemma NumberedPop(s: State, rid: Rid)
    requires Lanes(s) && AllNumbered(s) && rid in s.inbound
    requires Get(s.chans, KeyOfResult(s.inbound[rid].result)) != []
    requires s.inbound[rid].seqNo == |Get(s.pops, KeyOfResult(s.inbound[rid].result))|
    ensures AllNumbered(OnPop(s, rid))
  {
    LanesPop(s, rid);
    PopKeepsNumbers(s, rid);
    hide Lanes, Numbered, OnPop, Get;
    var s' := OnPop(s, rid);
    forall a | a in s'.inbound ensures Numbered(s', s'.inbound[a]) { NumberedPopOne(s, rid, a); }
  }

  lemma PopKeepsNumbers(s: State, rid: Rid)
    requires rid in s.inbound && Get(s.chans, KeyOfResult(s.inbound[rid].result)) != []
    ensures var s' := OnPop(s, rid);
            && s'.inbound.Keys == s.inbound.Keys
            && forall a :: a in s'.inbound ==>
                 s'.inbound[a].result == s.inbound[a].result && s'.inbound[a].seqNo == s.inbound[a].seqNo
  {
    hide Get, Add;
  }

  lemma NumberedPopOne(s: State, rid: Rid, a: Rid)
    requires AllNumbered(s) && rid in s.inbound && a in s.inbound
    requires Get(s.chans, KeyOfResult(s.inbound[rid].result)) != []
    requires s.inbound[rid].seqNo == |Get(s.pops, KeyOfResult(s.inbound[rid].result))|
    requires s.inbound[rid].result.jobId == Get(s.chans, KeyOfResult(s.inbound[rid].result))[0]
    ensures var s' := OnPop(s, rid); a in s'.inbound && Numbered(s', s'.inbound[a])
  {
    assert Numbered(s, s.inbound[a]);
  }

  predicate Settling(e: Event) { e.PopTimeout? || e.Complete? || e.Reject? || e.Reply? }

  lemma NothingReturns(s: State, e: Event)
    requires Enabled(s, e) && !e.Arrive? && !e.PopHead? && !Settling(e)
    ensures var s' := Apply(s, e); s'.arrived == s.arrived && s'.pops == s.pops && s'.inbound == s.inbound
  {
    hide Enabled, Get, Add, KeyOf, Say;
  }

  lemma ResultMoves(s: State, e: Event)
    requires Enabled(s, e) && Settling(e)
    ensures var s' := Apply(s, e);
            && s'.arrived == s.arrived && s'.pops == s.pops
            && forall a :: a in s'.inbound ==> a in s.inbound && SameNumber(s.inbound[a], s'.inbound[a])
  {
    SettlesNothingElse(s, e);
    hide Enabled, Apply, Settling, SameNumber;
    forall a | a in Apply(s, e).inbound ensures a in s.inbound && SameNumber(s.inbound[a], Apply(s, e).inbound[a]) {
      SettlesOne(s, e, a);
    }
  }

  lemma SettlesNothingElse(s: State, e: Event)
    requires Enabled(s, e) && Settling(e)
    ensures Apply(s, e).arrived == s.arrived && Apply(s, e).pops == s.pops
  {
    hide Enabled, Say;
  }

  lemma SettlesOne(s: State, e: Event, a: Rid)
    requires Enabled(s, e) && Settling(e) && a in Apply(s, e).inbound
    ensures a in s.inbound && SameNumber(s.inbound[a], Apply(s, e).inbound[a])
  {
    hide Get, Add, KeyOf, KeyOfResult, Completes, Say;
  }

  /** The other events keep a result's number, its job and the histories it is numbered by. */
  lemma NumbersStay(s: State, e: Event)
    requires Enabled(s, e) && !e.Arrive? && !e.PopHead?
    ensures var s' := Apply(s, e);
            && s'.arrived == s.arrived && s'.pops == s.pops
            && forall a :: a in s'.inbound ==> a in s.inbound && SameNumber(s.inbound[a], s'.inbound[a])
  {
    hide Enabled, Apply;
    if Settling(e) { ResultMoves(s, e); } else { NothingReturns(s, e); }
  }

  predicate SameNumber(r: Return, r': Return)
  {
    r'.result == r.result && r'.seqNo == r.seqNo && (r'.at == r.at || (r.at.Holding? && r'.at == Replying(r.at.job)))
  }

  lemma NumberedElse(s: State, e: Event)
    requires AllNumbered(s) && Enabled(s, e) && !e.Arrive? && !e.PopHead?
    ensures AllNumbered(Apply(s, e))
  {
    hide Get, Apply, Enabled;
    NumbersStay(s, e);
    var s' := Apply(s, e);
    forall a | a in s'.inbound ensures Numbered(s', s'.inbound[a]) {
      assert SameNumber(s.inbound[a], s'.inbound[a]) && Numbered(s, s.inbound[a]);
    }
    hide Numbered;
    forall a, b | && a in s'.inbound && b in s'.inbound && a != b
                  && KeyOfResult(s'.inbound[a].result) == KeyOfResult(s'.inbound[b].result)
      ensures s'.inbound[a].seqNo != s'.inbound[b].seqNo
    {
      assert SameNumber(s.inbound[a], s'.inbound[a]) && SameNumber(s.inbound[b], s'.inbound[b]);
    }
  }

  lemma NumberedKept(s: State, e: Event, compute: (ChanKey, Bytes) -> Bytes)
    requires OrderInv(s, compute) && Enabled(s, e) && Ordered(s, e, compute)
    ensures AllNumbered(Apply(s, e))
  {
    hide Lanes, Turn, AllNumbered, Computed, OnArrive, OnPop, Get, KeyOf, Completes;
    if e.Arrive? { NumberedArrive(s, e.rid, e.result); }
    else if e.PopHead? { NumberedPop(s, e.rid); }
    else { NumberedElse(s, e); }
  }

  // ---------------------------------------------------------------- what results carry

  lemma ComputedComplete(s: State, rid: Rid, compute: (ChanKey, Bytes) -> Bytes)
    requires OwnJobs(s.requests, s.jobs) && AllNumbered(s) && Computed(s.requests, s.jobs, s.inbound, compute)
    requires Checking(s, rid) && Completes(s.jobs[s.inbound[rid].at.job], s.inbound[rid].result)
    ensures var s' := OnComplete(s, rid); Computed(s'.requests, s'.jobs, s'.inbound, compute)
  {
    var r, id := s.inbound[rid].result, s.inbound[rid].at.job;
    assert Numbered(s, s.inbound[rid]) && OwnResult(s.requests, r, compute);
    assert OwnJob(s.requests[id], s.jobs[id]) && JobRet(s.jobs[id], compute);
    assert [] + r.ret == r.ret;
    hide AllNumbered, Numbered, OwnJobs;
  }

  /** A new result is its job's own. */
  lemma ComputedArrive(s: State, rid: Rid, r: Result, compute: (ChanKey, Bytes) -> Bytes)
    requires Computed(s.requests, s.jobs, s.inbound, compute) && NextAnswer(s, r, compute)
    ensures var s' := OnArrive(s, rid, r); Computed(s'.requests, s'.jobs, s'.inbound, compute)
  {
    hide Add;
  }

  /** Requests only grow, results only move, and a job that changes keeps what it returns. */
  lemma ComputedStay(s: State, s': State, compute: (ChanKey, Bytes) -> Bytes)
    requires Computed(s.requests, s.jobs, s.inbound, compute)
    requires forall id :: id in s.requests ==> id in s'.requests && s'.requests[id] == s.requests[id]
    requires forall a :: a in s'.inbound ==> a in s.inbound && s'.inbound[a].result == s.inbound[a].result
    requires forall id :: id in s'.jobs ==> JobRet(s'.jobs[id], compute) || (id in s.jobs && s'.jobs[id] == s.jobs[id])
    ensures Computed(s'.requests, s'.jobs, s'.inbound, compute)
  {
    hide JobRet;
  }

  lemma KeepsRequests(s: State, e: Event)
    requires Enabled(s, e)
    ensures var s' := Apply(s, e);
            forall id :: id in s.requests ==> id in s'.requests && s'.requests[id] == s.requests[id]
  {
    hide Get, Add, KeyOf, KeyOfResult, Completes, Say, Empty;
  }

  lemma KeepsReturns(s: State, e: Event, compute: (ChanKey, Bytes) -> Bytes)
    requires (forall id :: id in s.jobs ==> JobRet(s.jobs[id], compute)) && Enabled(s, e) && !e.Complete?
    ensures var s' := Apply(s, e);
            forall id :: id in s'.jobs ==> JobRet(s'.jobs[id], compute) || (id in s.jobs && s'.jobs[id] == s.jobs[id])
  {
    hide Get, Add, KeyOfResult, Completes, Say, Empty;
    if !ChangesJob(e) { SameJobs(s, e); }
  }

  lemma ComputedElse(s: State, e: Event, compute: (ChanKey, Bytes) -> Bytes)
    requires Computed(s.requests, s.jobs, s.inbound, compute) && Enabled(s, e) && !e.Complete? && Ordered(s, e, compute)
    ensures var s' := Apply(s, e); Computed(s'.requests, s'.jobs, s'.inbound, compute)
  {
    hide OnArrive, OnPop, Get, Add, Between, Completes, JobRet, OwnResult, NextAnswer;
    if e.Arrive? {
      ComputedArrive(s, e.rid, e.result, compute);
    } else {
      KeepsRequests(s, e);
      KeepsReturns(s, e, compute);
      ResultsStay(s, e);
      ComputedStay(s, Apply(s, e), compute);
    }
  }

  lemma ResultsStay(s: State, e: Event)
    requires Enabled(s, e) && !e.Arrive?
    ensures var s' := Apply(s, e);
            forall a :: a in s'.inbound ==> a in s.inbound && s'.inbound[a].result == s.inbound[a].result
  {
    if e.PopHead? {
      PopKeepsNumbers(s, e.rid);
    } else {
      hide Enabled, Apply;
      NumbersStay(s, e);
    }
  }

  lemma ComputedKept(s: State, e: Event, compute: (ChanKey, Bytes) -> Bytes)
    requires JobsMatch(s) && OrderInv(s, compute) && Enabled(s, e) && Ordered(s, e, compute)
    ensures var s' := Apply(s, e); Computed(s'.requests, s'.jobs, s'.inbound, compute)
  {
    hide Lanes, Turn, AllNumbered, Computed, OwnJobs, TaskJobs, PlaceJobs, Replies;
    if e.Complete? { ComputedComplete(s, e.rid, compute); } else { ComputedElse(s, e, compute); }
  }

  // ---------------------------------------------------------------- ordered runs

  lemma OrderStart(compute: (ChanKey, Bytes) -> Bytes)
    ensures OrderInv(START, compute)
  {
  }

  lemma OrderKept(s: State, e: Event, compute: (ChanKey, Bytes) -> Bytes)
    requires Inv(s) && OrderInv(s, compute) && Enabled(s, e) && Ordered(s, e, compute)
    ensures OrderInv(Apply(s, e), compute)
  {
    hide Lanes, Turn, AllNumbered, Computed, Apply, Enabled, Ordered, Placed, JobsMatch, Answered;
    LanesKept(s, e, compute);
    TurnKept(s, e, compute);
    NumberedKept(s, e, compute);
    ComputedKept(s, e, compute);
  }

  lemma OrderedStep(ss: seq<State>, es: seq<Event>, i: nat, compute: (ChanKey, Bytes) -> Bytes)
    requires OrderedRun(ss, es, compute) && i < |es|
    ensures IsRun(ss, es) && |ss| == |es| + 1 && ss[0] == START
    ensures Step(ss[i], es[i], ss[i + 1]) && Ordered(ss[i], es[i], compute)
  {
    hide Step, Ordered;
  }

  lemma {:induction false} OrderedInv(ss: seq<State>, es: seq<Event>, i: nat, compute: (ChanKey, Bytes) -> Bytes)
    requires OrderedRun(ss, es, compute) && i < |ss|
    ensures OrderInv(ss[i], compute)
  {
    hide OrderInv, Inv, Apply, Enabled, Ordered;
    if i == 0 {
      OrderStart(compute);
    } else {
      OrderedStep(ss, es, i - 1, compute);
      RunInv(ss, es, i - 1);
      hide OrderedRun, IsRun;
      OrderedInv(ss, es, i - 1, compute);
      OrderKept(ss[i - 1], es[i - 1], compute);
    }
  }

  /** In an ordered run every popped job is the one its result names. */
  lemma OrderedMatches(ss: seq<State>, es: seq<Event>, i: nat, k: ChanKey, compute: (ChanKey, Bytes) -> Bytes)
    requires OrderedRun(ss, es, compute) && i < |ss|
    ensures Matched(Get(ss[i].pops, k))
  {
    OrderedInv(ss, es, i, compute);
    hide OrderedRun, IsRun;
    var s := ss[i];
    assert Lane(Get(s.pushed, k), Get(s.sent, k), Get(s.arrived, k), Get(s.pops, k), Get(s.chans, k));
    var ps := Get(s.pops, k);
    forall n | 0 <= n < |ps| ensures ps[n].resultId == ps[n].job {
      assert PopResults(ps)[n] == Get(s.pushed, k)[n] == PopJobs(ps)[n];
    }
  }

  /** ... so every client that gets a RETURN_DATA gets the result computed from its own parameters. */
  lemma OrderedReply(ss: seq<State>, es: seq<Event>, i: nat, n: nat, compute: (ChanKey, Bytes) -> Bytes)
    requires OrderedRun(ss, es, compute) && i < |ss| && n < |ss[i].answers| && ss[i].answers[n].frame.ReturnData?
    ensures var a, s := ss[i].answers[n], ss[i];
            && a.req in s.requests && a.req in s.jobs
            && a.frame.ret == compute(ChanKey(s.jobs[a.req].worker, s.requests[a.req].handle), s.requests[a.req].params)
  {
    OrderedInv(ss, es, i, compute);
    RunInv(ss, es, i);
    hide OrderedRun, IsRun, Lanes, Turn, AllNumbered, Placed, TaskJobs, PlaceJobs, Replies;
    var a, s := ss[i].answers[n], ss[i];
    assert GoodAnswer(s.requests, s.jobs, s.place, a);
    assert OwnJob(s.requests[a.req], s.jobs[a.req]) && JobRet(s.jobs[a.req], compute);
  }

  /** ... and no result is lost: one that is waiting always finds its job in the channel. */
  lemma OrderedNoTimeout(ss: seq<State>, es: seq<Event>, i: nat, compute: (ChanKey, Bytes) -> Bytes)
    requires OrderedRun(ss, es, compute) && i < |es|
    ensures !es[i].PopTimeout?
  {
    RunLength(ss, es);
    OrderedInv(ss, es, i, compute);
    assert Ordered(ss[i], es[i], compute);
    RunStep(ss, es, i);
    if es[i].PopTimeout? {
      var r := ss[i].inbound[es[i].rid];
      assert Numbered(ss[i], r);
      LaneLengths(ss[i], KeyOfResult(r.result));
      assert false;
    }
  }
}
