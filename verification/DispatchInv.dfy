/** The invariant of the dispatch protocol, container by container, and its preservation by every event. */
module DispatchInv {
  import opened Dispatch

  ghost predicate Distinct(s: seq<Id>) { forall i, j :: 0 <= i < j < |s| ==> s[i] != s[j] }

  ghost predicate BeforePush(t: Task) { t == Picking || t == Pushing }

  ghost predicate Carries(r: Return, id: Id) { (r.at.Holding? || r.at.Replying?) && r.at.job == id }

  type Places = map<Id, Place>

  predicate Is(place: Places, id: Id, p: Place) { id in place && place[id] == p }

  ghost predicate PoolOk(pool: seq<Id>, place: Places)
  {
    Distinct(pool) && forall id :: id in pool <==> Is(place, id, InPool)
  }

  ghost predicate TasksOk(tasks: map<Id, Task>, place: Places)
  {
    forall id :: Is(place, id, InDispatch) <==> id in tasks && BeforePush(tasks[id])
  }

  ghost predicate ChansOk(chans: map<ChanKey, seq<Id>>, place: Places)
  {
    && (forall k :: Distinct(Get(chans, k)))
    && (forall k, id :: id in Get(chans, k) <==> Is(place, id, InChannel(k)))
  }

  ghost predicate ReturnsOk(inbound: map<Rid, Return>, place: Places)
  {
    && (forall id :: id in place && place[id].InReturn? ==>
        place[id].rid in inbound && Carries(inbound[place[id].rid], id))
    && (forall rid :: rid in inbound && inbound[rid].at != Queued ==> Is(place, inbound[rid].at.job, InReturn(rid)))
  }

  /** `place` names the one container each frame is in. */
  ghost predicate Placed(s: State)
  {
    && s.place.Keys == s.requests.Keys
    && PoolOk(s.pool, s.place) && TasksOk(s.tasks, s.place)
    && ChansOk(s.chans, s.place) && ReturnsOk(s.inbound, s.place)
  }

  ghost predicate OwnJob(q: Request, j: Job)
  {
    && j.client == q.client && j.func == q.handle && j.params == q.params
    && (j.response.Response? ==> j.response == Response(j.func, j.params))
  }

  /** Every job was made from its own frame, and carries its client, function and parameters. */
  ghost predicate OwnJobs(requests: map<Id, Request>, jobs: map<Id, Job>)
  {
    forall id :: id in jobs ==> id in requests && OwnJob(requests[id], jobs[id])
  }

  /** A job exists once a worker is picked, and is not started before the push. */
  ghost predicate TaskJobs(tasks: map<Id, Task>, jobs: map<Id, Job>, place: Places)
  {
    && (forall id :: id in tasks ==> id in place && !Is(place, id, InPool))
    && (forall id :: id in tasks && tasks[id] != Picking ==> id in jobs)
    && (forall id :: id in tasks && (tasks[id] == Pushing || tasks[id] == Starting) ==> jobs[id].status == INIT)
    && (forall id :: id in jobs ==> !Is(place, id, InPool) && !(id in tasks && tasks[id] == Picking))
  }

  /** A job in a channel is for that worker and function; a job held by a returner exists. */
  ghost predicate PlaceJobs(place: Places, jobs: map<Id, Job>)
  {
    && (forall id :: id in place && place[id].InChannel? ==> id in jobs && place[id].key == KeyOf(jobs[id]))
    && (forall id :: id in place && place[id].InReturn? ==> id in jobs)
  }

  ghost predicate Replies(inbound: map<Rid, Return>, jobs: map<Id, Job>)
  {
    forall rid :: rid in inbound && inbound[rid].at.Replying? ==> Replied(jobs, inbound[rid].at.job)
  }

  ghost predicate Replied(jobs: map<Id, Job>, id: Id)
  {
    id in jobs && jobs[id].status == DONE && jobs[id].response.Response?
  }

  ghost predicate JobsMatch(s: State)
  {
    && OwnJobs(s.requests, s.jobs) && TaskJobs(s.tasks, s.jobs, s.place)
    && PlaceJobs(s.place, s.jobs) && Replies(s.inbound, s.jobs)
  }

  /** One answer at most, only once finished; a RETURN_DATA answer echoes the frame it answers. */
  ghost predicate AnswersOk(answers: seq<Answer>, requests: map<Id, Request>, jobs: map<Id, Job>, place: Places)
  {
    && (forall i, j :: 0 <= i < j < |answers| ==> answers[i].req != answers[j].req)
    && (forall i :: 0 <= i < |answers| ==> GoodAnswer(requests, jobs, place, answers[i]))
  }

  ghost predicate Answered(s: State) { AnswersOk(s.answers, s.requests, s.jobs, s.place) }

  ghost predicate GoodAnswer(requests: map<Id, Request>, jobs: map<Id, Job>, place: Places, a: Answer)
  {
    && a.req in requests && Is(place, a.req, Finished)
    && (a.frame.ReturnData? ==>
          && a.req in jobs && jobs[a.req].status == DONE && a.frame.ret == jobs[a.req].ret
          && a.frame.handle == requests[a.req].handle && a.frame.params == requests[a.req].params)
  }

  ghost predicate Inv(s: State) { Placed(s) && JobsMatch(s) && Answered(s) }

  // ---------------------------------------------------------------- every step keeps it

  /** A frame that leaves and enters containers other than this one leaves this one as it was. */
  lemma PoolUntouched(pool: seq<Id>, place: Places, id: Id, p: Place)
    requires PoolOk(pool, place) && !Is(place, id, InPool) && p != InPool
    ensures PoolOk(pool, place[id := p])
  {
  }

  lemma TasksUntouched(tasks: map<Id, Task>, place: Places, id: Id, p: Place)
    requires TasksOk(tasks, place) && !Is(place, id, InDispatch) && p != InDispatch
    ensures TasksOk(tasks, place[id := p])
  {
  }

  lemma ChansUntouched(chans: map<ChanKey, seq<Id>>, place: Places, id: Id, p: Place)
    requires ChansOk(chans, place) && (id in place ==> !place[id].InChannel?) && !p.InChannel?
    ensures ChansOk(chans, place[id := p])
  {
  }

  lemma ReturnsUntouched(inbound: map<Rid, Return>, place: Places, id: Id, p: Place)
    requires ReturnsOk(inbound, place) && (id in place ==> !place[id].InReturn?) && !p.InReturn?
    ensures ReturnsOk(inbound, place[id := p])
  {
  }

  lemma PoolAdd(pool: seq<Id>, place: Places, id: Id)
    requires PoolOk(pool, place) && id !in place
    ensures PoolOk(pool + [id], place[id := InPool])
  {
    forall i | 0 <= i < |pool| ensures pool[i] != id { assert pool[i] in pool; }
  }

  lemma PoolRemove(pool: seq<Id>, place: Places, p: Place)
    requires PoolOk(pool, place) && |pool| > 0 && p != InPool
    ensures PoolOk(pool[1..], place[pool[0] := p])
  {
    forall id ensures id in pool[1..] <==> id in pool && id != pool[0] {
      if id in pool && id != pool[0] {
        var i :| 0 <= i < |pool| && pool[i] == id;
        assert pool[1..][i - 1] == id;
      }
    }
  }

  lemma TasksEnter(tasks: map<Id, Task>, place: Places, id: Id)
    requires TasksOk(tasks, place)
    ensures TasksOk(tasks[id := Picking], place[id := InDispatch])
  {
  }

  lemma TasksLeave(tasks: map<Id, Task>, place: Places, id: Id, p: Place)
    requires TasksOk(tasks, place) && p != InDispatch
    ensures TasksOk(tasks - {id}, place[id := p])
    ensures TasksOk(tasks[id := Starting], place[id := p])
  {
  }

  /** A task that moves on, or ends, without crossing the push. */
  lemma TasksMove(tasks: map<Id, Task>, place: Places, id: Id, t: Task)
    requires TasksOk(tasks, place) && id in tasks
    ensures BeforePush(tasks[id]) == BeforePush(t) ==> TasksOk(tasks[id := t], place)
    ensures !BeforePush(tasks[id]) ==> TasksOk(tasks - {id}, place)
  {
  }

  lemma ChansPush(chans: map<ChanKey, seq<Id>>, place: Places, k: ChanKey, id: Id)
    requires ChansOk(chans, place) && (id in place ==> !place[id].InChannel?)
    ensures ChansOk(Add(chans, k, id), place[id := InChannel(k)])
  {
    var chans', place' := Add(chans, k, id), place[id := InChannel(k)];
    forall i | 0 <= i < |Get(chans, k)| ensures Get(chans, k)[i] != id { assert Get(chans, k)[i] in Get(chans, k); }
    forall l, x ensures x in Get(chans', l) <==> Is(place', x, InChannel(l)) {
      assert x in Get(chans, l) <==> Is(place, x, InChannel(l));
    }
    forall l ensures Distinct(Get(chans', l)) { assert Distinct(Get(chans, l)); }
  }

  lemma ChansPop(chans: map<ChanKey, seq<Id>>, place: Places, k: ChanKey, p: Place)
    requires ChansOk(chans, place) && Get(chans, k) != [] && !p.InChannel?
    ensures ChansOk(chans[k := Get(chans, k)[1..]], place[Get(chans, k)[0] := p])
  {
    var ch := Get(chans, k);
    var chans', place' := chans[k := ch[1..]], place[ch[0] := p];
    forall l, x ensures x in Get(chans', l) <==> Is(place', x, InChannel(l)) {
      assert x in Get(chans, l) <==> Is(place, x, InChannel(l));
      assert ch[0] in Get(chans, k);
      if l == k && x in ch && x != ch[0] {
        var i :| 0 <= i < |ch| && ch[i] == x;
        assert ch[1..][i - 1] == x;
      }
    }
    forall l ensures Distinct(Get(chans', l)) { assert Distinct(Get(chans, l)); }
  }

  lemma ReturnsQueue(inbound: map<Rid, Return>, place: Places, rid: Rid, r: Result, n: nat)
    requires ReturnsOk(inbound, place) && rid !in inbound
    ensures ReturnsOk(inbound[rid := Return(r, n, Queued)], place)
  {
  }

  lemma ReturnsHold(inbound: map<Rid, Return>, place: Places, rid: Rid, id: Id)
    requires ReturnsOk(inbound, place) && rid in inbound && inbound[rid].at == Queued
    requires id in place ==> !place[id].InReturn?
    ensures ReturnsOk(inbound[rid := inbound[rid].(at := Holding(id))], place[id := InReturn(rid)])
  {
  }

  lemma ReturnsAdvance(inbound: map<Rid, Return>, place: Places, rid: Rid, id: Id)
    requires ReturnsOk(inbound, place) && rid in inbound && inbound[rid].at == Holding(id)
    ensures ReturnsOk(inbound[rid := inbound[rid].(at := Replying(id))], place)
  {
  }

  lemma ReturnsDrop(inbound: map<Rid, Return>, place: Places, rid: Rid, id: Id, p: Place)
    requires ReturnsOk(inbound, place) && rid in inbound && Carries(inbound[rid], id) && !p.InReturn?
    ensures ReturnsOk(inbound - {rid}, place[id := p])
  {
    assert Is(place, id, InReturn(rid));
  }

  lemma ReturnsForget(inbound: map<Rid, Return>, place: Places, rid: Rid)
    requires ReturnsOk(inbound, place) && rid in inbound && inbound[rid].at == Queued
    ensures ReturnsOk(inbound - {rid}, place)
  {
  }

  lemma RefusePlaced(s: State, id: Id, req: Request, delivered: bool)
    requires Placed(s) && id !in s.requests
    ensures Placed(OnRefuse(s, id, req, delivered))
  {
    hide PoolOk, TasksOk, ChansOk, ReturnsOk;
    PoolUntouched(s.pool, s.place, id, Finished);
    TasksUntouched(s.tasks, s.place, id, Finished);
    ChansUntouched(s.chans, s.place, id, Finished);
    ReturnsUntouched(s.inbound, s.place, id, Finished);
  }

  lemma AcceptPlaced(s: State, id: Id, req: Request)
    requires Placed(s) && id !in s.requests
    ensures Placed(OnAccept(s, id, req))
  {
    hide PoolOk, TasksOk, ChansOk, ReturnsOk;
    PoolAdd(s.pool, s.place, id);
    TasksUntouched(s.tasks, s.place, id, InPool);
    ChansUntouched(s.chans, s.place, id, InPool);
    ReturnsUntouched(s.inbound, s.place, id, InPool);
  }

  lemma TakePlaced(s: State, id: Id)
    requires Placed(s) && s.pool != [] && s.pool[0] == id
    ensures Placed(OnTake(s, id))
  {
    InPoolHead(s);
    hide PoolOk, TasksOk, ChansOk, ReturnsOk;
    PoolRemove(s.pool, s.place, InDispatch);
    TasksEnter(s.tasks, s.place, id);
    ChansUntouched(s.chans, s.place, id, InDispatch);
    ReturnsUntouched(s.inbound, s.place, id, InDispatch);
  }

  lemma PushPlaced(s: State, id: Id)
    requires Placed(s) && At(s, id, Pushing) && id in s.jobs
    ensures Placed(OnPush(s, id))
  {
    hide PoolOk, TasksOk, ChansOk, ReturnsOk;
    LeaveDispatch(s, id, InChannel(KeyOf(s.jobs[id])));
    ChansPush(s.chans, s.place, KeyOf(s.jobs[id]), id);
  }

  lemma PopPlaced(s: State, rid: Rid)
    requires Placed(s) && Enabled(s, PopHead(rid))
    ensures Placed(OnPop(s, rid))
  {
    hide PoolOk, TasksOk, ChansOk, ReturnsOk;
    var k := KeyOfResult(s.inbound[rid].result);
    var id := Get(s.chans, k)[0];
    InChannelHead(s, k);
    ChansPop(s.chans, s.place, k, InReturn(rid));
    PoolUntouched(s.pool, s.place, id, InReturn(rid));
    TasksUntouched(s.tasks, s.place, id, InReturn(rid));
    ReturnsHold(s.inbound, s.place, rid, id);
  }

  lemma CompletePlaced(s: State, rid: Rid)
    requires Placed(s) && Checking(s, rid)
    ensures Placed(OnComplete(s, rid))
  {
    hide PoolOk, TasksOk, ChansOk, ReturnsOk;
    ReturnsAdvance(s.inbound, s.place, rid, s.inbound[rid].at.job);
  }

  lemma RejectPlaced(s: State, rid: Rid)
    requires Placed(s) && Checking(s, rid)
    ensures Placed(OnReject(s, rid))
  {
    LeaveReturn(s, rid, s.inbound[rid].at.job);
    hide PoolOk, TasksOk, ChansOk, ReturnsOk;
  }

  lemma GiveUpPlaced(s: State, id: Id, delivered: bool)
    requires Placed(s) && id in s.tasks && BeforePush(s.tasks[id])
    ensures Placed(OnGiveUp(s, id, delivered))
  {
    hide PoolOk, TasksOk, ChansOk, ReturnsOk;
    LeaveDispatch(s, id, Finished);
  }

  lemma PickPlaced(s: State, id: Id, w: Wid)
    requires Placed(s) && Enabled(s, Pick(id, w))
    ensures Placed(OnPick(s, id, w))
  {
    hide PoolOk, TasksOk, ChansOk, ReturnsOk;
    TasksMove(s.tasks, s.place, id, Pushing);
  }

  lemma BeginPlaced(s: State, id: Id)
    requires Placed(s) && At(s, id, Starting) && id in s.jobs
    ensures Placed(OnBegin(s, id)) && Placed(OnSkip(s, id))
  {
    hide PoolOk, TasksOk, ChansOk, ReturnsOk;
    TasksMove(s.tasks, s.place, id, Writing);
  }

  lemma SendPlaced(s: State, id: Id, delivered: bool)
    requires Placed(s) && Enabled(s, Send(id, delivered))
    ensures Placed(OnSend(s, id, delivered))
  {
    hide PoolOk, TasksOk, ChansOk, ReturnsOk;
    TasksMove(s.tasks, s.place, id, Storing);
  }

  lemma StorePlaced(s: State, id: Id)
    requires Placed(s) && Enabled(s, Store(id))
    ensures Placed(OnStore(s, id))
  {
    hide PoolOk, TasksOk, ChansOk, ReturnsOk;
    TasksMove(s.tasks, s.place, id, Storing);
  }

  lemma ReplyPlaced(s: State, rid: Rid, delivered: bool)
    requires Placed(s) && Enabled(s, Reply(rid, delivered))
    ensures Placed(OnReply(s, rid, delivered))
  {
    hide PoolOk, TasksOk, ChansOk, ReturnsOk;
    LeaveReturn(s, rid, s.inbound[rid].at.job);
  }

  lemma QueuePlaced(s: State, e: Event)
    requires Placed(s) && Enabled(s, e) && (e.Arrive? || e.PopTimeout?)
    ensures Placed(Apply(s, e))
  {
    hide PoolOk, TasksOk, ChansOk, ReturnsOk, Get, Add, KeyOf;
    if e.Arrive? { ReturnsQueue(s.inbound, s.place, e.rid, e.result, |Get(s.arrived, KeyOfResult(e.result))|); }
    else { ReturnsForget(s.inbound, s.place, e.rid); }
  }

  lemma PlacedKept(s: State, e: Event)
    requires Placed(s) && Enabled(s, e)
    ensures Placed(Apply(s, e))
  {
    hide Placed, OnRefuse, OnAccept, OnTake, OnGiveUp, OnPick, OnPush, OnBegin, OnSkip, OnSend, OnStore;
    hide OnArrive, OnPop, OnPopTimeout, OnComplete, OnReject, OnReply;
    match e
    case Refuse(id, req, delivered) => RefusePlaced(s, id, req, delivered);
    case Accept(id, req) => AcceptPlaced(s, id, req);
    case Take(id) => TakePlaced(s, id);
    case NoWorker(id, delivered) => GiveUpPlaced(s, id, delivered);
    case PushTimeout(id, delivered) => GiveUpPlaced(s, id, delivered);
    case Push(id) => PushPlaced(s, id);
    case PopHead(rid) => PopPlaced(s, rid);
    case Complete(rid) => CompletePlaced(s, rid);
    case Reject(rid) => RejectPlaced(s, rid);
    case Reply(rid, delivered) => ReplyPlaced(s, rid, delivered);
    case Arrive(_, _) => QueuePlaced(s, e);
    case PopTimeout(_) => QueuePlaced(s, e);
    case Pick(id, w) => PickPlaced(s, id, w);
    case Begin(id) => BeginPlaced(s, id);
    case Skip(id) => BeginPlaced(s, id);
    case Send(id, delivered) => SendPlaced(s, id, delivered);
    case Store(id) => StorePlaced(s, id);
  }

  lemma InPoolHead(s: State)
    requires Placed(s) && s.pool != []
    ensures Is(s.place, s.pool[0], InPool)
  {
    assert s.pool[0] in s.pool;
  }

  lemma InChannelHead(s: State, k: ChanKey)
    requires Placed(s) && Get(s.chans, k) != []
    ensures Is(s.place, Get(s.chans, k)[0], InChannel(k))
  {
    assert Get(s.chans, k)[0] in Get(s.chans, k);
  }

  lemma LeaveDispatch(s: State, id: Id, p: Place)
    requires Placed(s) && id in s.tasks && BeforePush(s.tasks[id]) && (p == Finished || p.InChannel?)
    ensures var place' := s.place[id := p];
            && place'.Keys == s.requests.Keys && PoolOk(s.pool, place')
            && TasksOk(s.tasks - {id}, place') && TasksOk(s.tasks[id := Starting], place')
            && (p == Finished ==> ChansOk(s.chans, place')) && ReturnsOk(s.inbound, place')
    ensures Is(s.place, id, InDispatch)
  {
    assert Is(s.place, id, InDispatch);
    hide PoolOk, TasksOk, ChansOk, ReturnsOk;
    PoolUntouched(s.pool, s.place, id, p);
    TasksLeave(s.tasks, s.place, id, p);
    if p == Finished { ChansUntouched(s.chans, s.place, id, p); }
    ReturnsUntouched(s.inbound, s.place, id, p);
  }

  lemma LeaveReturn(s: State, rid: Rid, id: Id)
    requires Placed(s) && rid in s.inbound && Carries(s.inbound[rid], id)
    ensures var place' := s.place[id := Finished];
            && place'.Keys == s.requests.Keys && PoolOk(s.pool, place') && TasksOk(s.tasks, place')
            && ChansOk(s.chans, place') && ReturnsOk(s.inbound - {rid}, place')
    ensures Is(s.place, id, InReturn(rid))
  {
    assert Is(s.place, id, InReturn(rid));
    hide PoolOk, TasksOk, ChansOk, ReturnsOk;
    PoolUntouched(s.pool, s.place, id, Finished);
    TasksUntouched(s.tasks, s.place, id, Finished);
    ChansUntouched(s.chans, s.place, id, Finished);
    ReturnsDrop(s.inbound, s.place, rid, id, Finished);
  }

  lemma OwnGrow(requests: map<Id, Request>, jobs: map<Id, Job>, id: Id, req: Request)
    requires OwnJobs(requests, jobs) && id !in requests
    ensures OwnJobs(requests[id := req], jobs) && id !in jobs
  {
  }

  lemma OwnSet(requests: map<Id, Request>, jobs: map<Id, Job>, id: Id, j: Job)
    requires OwnJobs(requests, jobs) && id in requests && OwnJob(requests[id], j)
    ensures OwnJobs(requests, jobs[id := j])
  {
  }

  lemma TaskJobsMove(tasks: map<Id, Task>, jobs: map<Id, Job>, place: Places, id: Id, p: Place)
    requires TaskJobs(tasks, jobs, place) && p != InPool
    ensures TaskJobs(tasks, jobs, place[id := p]) && TaskJobs(tasks - {id}, jobs, place[id := p])
  {
  }

  lemma TaskJobsAccept(tasks: map<Id, Task>, jobs: map<Id, Job>, place: Places, id: Id)
    requires TaskJobs(tasks, jobs, place) && id !in place && id !in jobs
    ensures TaskJobs(tasks, jobs, place[id := InPool])
  {
  }

  lemma TaskJobsTake(tasks: map<Id, Task>, jobs: map<Id, Job>, place: Places, id: Id)
    requires TaskJobs(tasks, jobs, place) && Is(place, id, InPool)
    ensures TaskJobs(tasks[id := Picking], jobs, place[id := InDispatch])
  {
  }

  lemma TaskJobsPick(tasks: map<Id, Task>, jobs: map<Id, Job>, place: Places, id: Id, j: Job)
    requires TaskJobs(tasks, jobs, place) && id in tasks && tasks[id] == Picking && j.status == INIT
    ensures TaskJobs(tasks[id := Pushing], jobs[id := j], place) && id !in jobs
  {
  }

  lemma TaskJobsPush(tasks: map<Id, Task>, jobs: map<Id, Job>, place: Places, id: Id, p: Place)
    requires TaskJobs(tasks, jobs, place) && id in tasks && tasks[id] == Pushing && p != InPool
    ensures TaskJobs(tasks[id := Starting], jobs, place[id := p])
  {
  }

  /** The steps of `doWork`: the task moves on or ends, the job keeps its place. */
  lemma TaskJobsWork(tasks: map<Id, Task>, jobs: map<Id, Job>, place: Places, id: Id, t: Task, j: Job)
    requires TaskJobs(tasks, jobs, place) && id in tasks && id in jobs && (t == Writing || t == Storing)
    ensures TaskJobs(tasks[id := t], jobs[id := j], place)
    ensures TaskJobs(tasks - {id}, jobs[id := j], place)
  {
  }

  lemma TaskJobsReturn(tasks: map<Id, Task>, jobs: map<Id, Job>, place: Places, id: Id, j: Job)
    requires TaskJobs(tasks, jobs, place) && id in jobs && jobs[id].status != INIT
    ensures TaskJobs(tasks, jobs[id := j], place)
  {
  }

  lemma PlaceJobsMove(place: Places, jobs: map<Id, Job>, id: Id, p: Place)
    requires PlaceJobs(place, jobs)
    requires p.InChannel? ==> id in jobs && p.key == KeyOf(jobs[id])
    requires p.InReturn? ==> id in jobs
    ensures PlaceJobs(place[id := p], jobs)
  {
  }

  lemma PlaceJobsSet(place: Places, jobs: map<Id, Job>, id: Id, j: Job)
    requires PlaceJobs(place, jobs)
    requires id in jobs ==> KeyOf(j) == KeyOf(jobs[id])
    ensures PlaceJobs(place, jobs[id := j])
  {
  }

  lemma RepliesJob(inbound: map<Rid, Return>, jobs: map<Id, Job>, id: Id, j: Job)
    requires Replies(inbound, jobs)
    requires Replied(jobs, id) ==> j.status == DONE && j.response.Response?
    ensures Replies(inbound, jobs[id := j])
  {
  }

  lemma RepliesReturn(inbound: map<Rid, Return>, jobs: map<Id, Job>, rid: Rid, r: Return)
    requires Replies(inbound, jobs)
    ensures Replies(inbound - {rid}, jobs)
    ensures (r.at.Replying? ==> Replied(jobs, r.at.job)) ==> Replies(inbound[rid := r], jobs)
  {
  }

  lemma RefuseJobs(s: State, id: Id, req: Request, delivered: bool)
    requires Placed(s) && JobsMatch(s) && id !in s.requests
    ensures JobsMatch(OnRefuse(s, id, req, delivered))
  {
    hide OwnJobs, TaskJobs, PlaceJobs, Replies, PoolOk, TasksOk, ChansOk, ReturnsOk;
    OwnGrow(s.requests, s.jobs, id, req);
    TaskJobsMove(s.tasks, s.jobs, s.place, id, Finished);
    PlaceJobsMove(s.place, s.jobs, id, Finished);
  }

  lemma AcceptJobs(s: State, id: Id, req: Request)
    requires Placed(s) && JobsMatch(s) && id !in s.requests
    ensures JobsMatch(OnAccept(s, id, req))
  {
    hide OwnJobs, TaskJobs, PlaceJobs, Replies, PoolOk, TasksOk, ChansOk, ReturnsOk;
    OwnGrow(s.requests, s.jobs, id, req);
    TaskJobsAccept(s.tasks, s.jobs, s.place, id);
    PlaceJobsMove(s.place, s.jobs, id, InPool);
  }

  lemma TakeJobs(s: State, id: Id)
    requires Placed(s) && JobsMatch(s) && s.pool != [] && s.pool[0] == id
    ensures JobsMatch(OnTake(s, id))
  {
    InPoolHead(s);
    hide OwnJobs, TaskJobs, PlaceJobs, Replies, PoolOk, TasksOk, ChansOk, ReturnsOk;
    TaskJobsTake(s.tasks, s.jobs, s.place, id);
    PlaceJobsMove(s.place, s.jobs, id, InDispatch);
  }

  lemma GiveUpJobs(s: State, id: Id, delivered: bool)
    requires Placed(s) && JobsMatch(s) && id in s.tasks
    ensures JobsMatch(OnGiveUp(s, id, delivered))
  {
    hide OwnJobs, TaskJobs, PlaceJobs, Replies, PoolOk, TasksOk, ChansOk, ReturnsOk;
    TaskJobsMove(s.tasks, s.jobs, s.place, id, Finished);
    PlaceJobsMove(s.place, s.jobs, id, Finished);
  }

  lemma PickJobs(s: State, id: Id, w: Wid)
    requires Placed(s) && JobsMatch(s) && At(s, id, Picking) && id in s.requests
    ensures JobsMatch(OnPick(s, id, w))
  {
    hide OwnJobs, TaskJobs, PlaceJobs, Replies, PoolOk, TasksOk, ChansOk, ReturnsOk;
    var j := OnPick(s, id, w).jobs[id];
    OwnSet(s.requests, s.jobs, id, j);
    TaskJobsPick(s.tasks, s.jobs, s.place, id, j);
    PlaceJobsSet(s.place, s.jobs, id, j);
    RepliesJob(s.inbound, s.jobs, id, j);
  }

  lemma PushJobs(s: State, id: Id)
    requires Placed(s) && JobsMatch(s) && At(s, id, Pushing) && id in s.jobs
    ensures JobsMatch(OnPush(s, id))
  {
    hide OwnJobs, TaskJobs, PlaceJobs, Replies, PoolOk, TasksOk, ChansOk, ReturnsOk;
    TaskJobsPush(s.tasks, s.jobs, s.place, id, InChannel(KeyOf(s.jobs[id])));
    PlaceJobsMove(s.place, s.jobs, id, InChannel(KeyOf(s.jobs[id])));
  }

  lemma BeginJobs(s: State, id: Id)
    requires Placed(s) && JobsMatch(s) && At(s, id, Starting) && id in s.jobs && s.jobs[id].status == INIT
    ensures JobsMatch(OnBegin(s, id))
  {
    assert id in s.requests && OwnJob(s.requests[id], s.jobs[id]);
    hide OwnJobs, TaskJobs, PlaceJobs, Replies, PoolOk, TasksOk, ChansOk, ReturnsOk;
    var j := s.jobs[id].(status := DOING);
    OwnSet(s.requests, s.jobs, id, j);
    TaskJobsWork(s.tasks, s.jobs, s.place, id, Writing, j);
    PlaceJobsSet(s.place, s.jobs, id, j);
    RepliesJob(s.inbound, s.jobs, id, j);
  }

  lemma SendJobs(s: State, id: Id, delivered: bool)
    requires Placed(s) && JobsMatch(s) && id in s.tasks && id in s.jobs
    ensures JobsMatch(OnSend(s, id, delivered))
  {
    hide OwnJobs, TaskJobs, PlaceJobs, Replies, PoolOk, TasksOk, ChansOk, ReturnsOk;
    TaskJobsWork(s.tasks, s.jobs, s.place, id, Storing, s.jobs[id]);
    assert s.jobs[id := s.jobs[id]] == s.jobs;
  }

  lemma StoreJobs(s: State, id: Id)
    requires Placed(s) && JobsMatch(s) && id in s.tasks && id in s.jobs
    ensures JobsMatch(OnStore(s, id))
  {
    assert id in s.requests && OwnJob(s.requests[id], s.jobs[id]);
    hide OwnJobs, TaskJobs, PlaceJobs, Replies, PoolOk, TasksOk, ChansOk, ReturnsOk;
    var j := OnStore(s, id).jobs[id];
    OwnSet(s.requests, s.jobs, id, j);
    TaskJobsWork(s.tasks, s.jobs, s.place, id, Storing, j);
    PlaceJobsSet(s.place, s.jobs, id, j);
    RepliesJob(s.inbound, s.jobs, id, j);
  }

  lemma PopHeadJobs(s: State, rid: Rid)
    requires Placed(s) && JobsMatch(s) && Enabled(s, PopHead(rid))
    ensures JobsMatch(OnPop(s, rid))
  {
    var id := Get(s.chans, KeyOfResult(s.inbound[rid].result))[0];
    InChannelHead(s, KeyOfResult(s.inbound[rid].result));
    assert id in s.jobs;
    hide OwnJobs, TaskJobs, PlaceJobs, Replies, PoolOk, TasksOk, ChansOk, ReturnsOk;
    TaskJobsMove(s.tasks, s.jobs, s.place, id, InReturn(rid));
    PlaceJobsMove(s.place, s.jobs, id, InReturn(rid));
    RepliesReturn(s.inbound, s.jobs, rid, s.inbound[rid].(at := Holding(id)));
  }

  lemma CompleteJobs(s: State, rid: Rid)
    requires Placed(s) && JobsMatch(s) && Checking(s, rid)
             && Completes(s.jobs[s.inbound[rid].at.job], s.inbound[rid].result)
    ensures JobsMatch(OnComplete(s, rid))
  {
    var id := s.inbound[rid].at.job;
    var j := OnComplete(s, rid).jobs[id];
    assert id in s.requests && OwnJob(s.requests[id], s.jobs[id]);
    hide OwnJobs, TaskJobs, PlaceJobs, Replies, PoolOk, TasksOk, ChansOk, ReturnsOk;
    OwnSet(s.requests, s.jobs, id, j);
    TaskJobsReturn(s.tasks, s.jobs, s.place, id, j);
    PlaceJobsSet(s.place, s.jobs, id, j);
    RepliesJob(s.inbound, s.jobs, id, j);
    RepliesReturn(s.inbound, s.jobs[id := j], rid, s.inbound[rid].(at := Replying(id)));
  }

  lemma RejectJobs(s: State, rid: Rid)
    requires Placed(s) && JobsMatch(s) && Checking(s, rid)
    ensures JobsMatch(OnReject(s, rid))
  {
    hide OwnJobs, TaskJobs, PlaceJobs, Replies, PoolOk, TasksOk, ChansOk, ReturnsOk;
    var id := s.inbound[rid].at.job;
    TaskJobsMove(s.tasks, s.jobs, s.place, id, Finished);
    PlaceJobsMove(s.place, s.jobs, id, Finished);
    RepliesReturn(s.inbound, s.jobs, rid, s.inbound[rid]);
  }

  lemma ReplyJobs(s: State, rid: Rid, delivered: bool)
    requires Placed(s) && JobsMatch(s) && Enabled(s, Reply(rid, delivered))
    ensures JobsMatch(OnReply(s, rid, delivered))
  {
    hide OwnJobs, TaskJobs, PlaceJobs, Replies, PoolOk, TasksOk, ChansOk, ReturnsOk;
    var id := s.inbound[rid].at.job;
    TaskJobsMove(s.tasks, s.jobs, s.place, id, Finished);
    PlaceJobsMove(s.place, s.jobs, id, Finished);
    RepliesReturn(s.inbound, s.jobs, rid, s.inbound[rid]);
  }

  lemma QueueJobs(s: State, e: Event)
    requires JobsMatch(s) && Enabled(s, e) && (e.Skip? || e.Arrive? || e.PopTimeout?)
    ensures JobsMatch(Apply(s, e))
  {
    hide OwnJobs, TaskJobs, PlaceJobs, Replies, Get, Add;
    match e
    case Skip(id) =>
      TaskJobsWork(s.tasks, s.jobs, s.place, id, Storing, s.jobs[id]);
      assert s.jobs[id := s.jobs[id]] == s.jobs;
    case Arrive(rid, r) => RepliesReturn(s.inbound, s.jobs, rid, OnArrive(s, rid, r).inbound[rid]);
    case PopTimeout(rid) => RepliesReturn(s.inbound, s.jobs, rid, s.inbound[rid]);
  }

  lemma JobsKept(s: State, e: Event)
    requires Placed(s) && JobsMatch(s) && Enabled(s, e)
    ensures JobsMatch(Apply(s, e))
  {
    hide Placed, JobsMatch, OnRefuse, OnAccept, OnTake, OnGiveUp, OnPick, OnPush, OnBegin, OnSend, OnStore;
    hide OnPop, OnComplete, OnReject, OnReply, OnSkip, OnArrive, OnPopTimeout;
    match e
    case Refuse(id, req, delivered) => RefuseJobs(s, id, req, delivered);
    case Accept(id, req) => AcceptJobs(s, id, req);
    case Take(id) => TakeJobs(s, id);
    case NoWorker(id, delivered) => GiveUpJobs(s, id, delivered);
    case PushTimeout(id, delivered) => GiveUpJobs(s, id, delivered);
    case Pick(id, w) => PickJobs(s, id, w);
    case Push(id) => PushJobs(s, id);
    case Begin(id) => BeginJobs(s, id);
    case Send(id, delivered) => SendJobs(s, id, delivered);
    case Store(id) => StoreJobs(s, id);
    case PopHead(rid) => PopHeadJobs(s, rid);
    case Complete(rid) => CompleteJobs(s, rid);
    case Reject(rid) => RejectJobs(s, rid);
    case Reply(rid, delivered) => ReplyJobs(s, rid, delivered);
    case _ => QueueJobs(s, e);
  }

  /** Two tables that differ at most at `id`. */
  ghost predicate Off<V>(m: map<Id, V>, m': map<Id, V>, id: Id)
  {
    forall x :: x != id ==> (x in m <==> x in m') && (x in m ==> m[x] == m'[x])
  }

  /** A step that touches only a frame not yet finished leaves every answer as good as it was. */
  lemma AnswersKept(answers: seq<Answer>, requests: map<Id, Request>, jobs: map<Id, Job>, place: Places,
                    requests': map<Id, Request>, jobs': map<Id, Job>, place': Places, id: Id)
    requires AnswersOk(answers, requests, jobs, place) && !Is(place, id, Finished)
    requires Off(requests, requests', id) && Off(jobs, jobs', id) && Off(place, place', id)
    ensures AnswersOk(answers, requests', jobs', place')
    ensures forall i :: 0 <= i < |answers| ==> answers[i].req != id
  {
    forall i | 0 <= i < |answers| ensures answers[i].req != id && GoodAnswer(requests', jobs', place', answers[i]) {
      assert GoodAnswer(requests, jobs, place, answers[i]);
    }
  }

  lemma AnswerAdded(answers: seq<Answer>, requests: map<Id, Request>, jobs: map<Id, Job>, place: Places,
                    id: Id, frame: Frame, delivered: bool)
    requires AnswersOk(answers, requests, jobs, place) && forall i :: 0 <= i < |answers| ==> answers[i].req != id
    requires GoodAnswer(requests, jobs, place, Answer(id, frame))
    ensures AnswersOk(Say(answers, id, frame, delivered), requests, jobs, place)
  {
    hide GoodAnswer;
  }

  /** Inside `doWork` the job may already be finished, but what an answer says of it does not change. */
  lemma AnswersKeptDoWork(answers: seq<Answer>, requests: map<Id, Request>, jobs: map<Id, Job>, place: Places, id: Id,
                          j: Job)
    requires AnswersOk(answers, requests, jobs, place) && id in jobs
    requires jobs[id].status == DONE ==> j.status == DONE && j.ret == jobs[id].ret
    ensures AnswersOk(answers, requests, jobs[id := j], place)
  {
    forall i | 0 <= i < |answers| ensures GoodAnswer(requests, jobs[id := j], place, answers[i]) {
      assert GoodAnswer(requests, jobs, place, answers[i]);
    }
  }

  lemma RefuseAnswered(s: State, id: Id, req: Request, delivered: bool)
    requires Answered(s) && id !in s.place
    ensures Answered(OnRefuse(s, id, req, delivered))
  {
    hide AnswersOk;
    var f, requests', place' := if Empty(req) then Error else RateLimit, s.requests[id := req], s.place[id := Finished];
    AnswersKept(s.answers, s.requests, s.jobs, s.place, requests', s.jobs, place', id);
    AnswerAdded(s.answers, requests', s.jobs, place', id, f, true);
  }

  lemma AcceptAnswered(s: State, id: Id, req: Request)
    requires Answered(s) && id !in s.place
    ensures Answered(OnAccept(s, id, req))
  {
    hide Answered;
    SilentAnswered(s, OnAccept(s, id, req), id);
  }

  lemma GiveUpAnswered(s: State, id: Id, delivered: bool)
    requires Inv(s) && id in s.tasks && BeforePush(s.tasks[id])
    ensures Answered(OnGiveUp(s, id, delivered))
  {
    LeaveDispatch(s, id, Finished);
    hide PoolOk, TasksOk, ChansOk, ReturnsOk, JobsMatch, AnswersOk;
    var s' := OnGiveUp(s, id, delivered);
    AnswersKept(s.answers, s.requests, s.jobs, s.place, s.requests, s.jobs, s'.place, id);
    AnswerAdded(s.answers, s.requests, s.jobs, s'.place, id, CantDo, delivered);
  }

  /** Steps that move one unfinished frame or change its job, and say nothing to the client. */
  lemma SilentAnswered(s: State, s': State, id: Id)
    requires Answered(s) && !Is(s.place, id, Finished) && s'.answers == s.answers
    requires Off(s.requests, s'.requests, id) && Off(s.jobs, s'.jobs, id) && Off(s.place, s'.place, id)
    ensures Answered(s')
  {
    AnswersKept(s.answers, s.requests, s.jobs, s.place, s'.requests, s'.jobs, s'.place, id);
  }

  lemma ReplyOwn(s: State, rid: Rid, id: Id)
    requires JobsMatch(s) && rid in s.inbound && s.inbound[rid].at == Replying(id) && id in s.jobs
    ensures Replied(s.jobs, id) && id in s.requests && OwnJob(s.requests[id], s.jobs[id])
  {
    hide TaskJobs, PlaceJobs;
  }

  lemma ReplyAnswered(s: State, rid: Rid, delivered: bool)
    requires Inv(s) && Enabled(s, Reply(rid, delivered))
    ensures Answered(OnReply(s, rid, delivered))
  {
    var id := s.inbound[rid].at.job;
    ReplyOwn(s, rid, id);
    hide Placed, JobsMatch, AnswersOk;
    LeaveReturn(s, rid, id);
    hide PoolOk, TasksOk, ChansOk, ReturnsOk;
    var s', j := OnReply(s, rid, delivered), s.jobs[id];
    AnswersKept(s.answers, s.requests, s.jobs, s.place, s.requests, s.jobs, s'.place, id);
    AnswerAdded(s.answers, s.requests, s.jobs, s'.place, id, ReturnData(j.response.handle, j.response.params, j.ret),
                delivered);
  }

  lemma AnsweredKept(s: State, e: Event)
    requires Inv(s) && Enabled(s, e)
    ensures Answered(Apply(s, e))
  {
    hide Placed, JobsMatch, Answered, OnRefuse, OnAccept, OnGiveUp, OnReply, OnPop, OnComplete, OnReject;
    match e
    case Refuse(id, req, delivered) => FreshPlace(s, id); RefuseAnswered(s, id, req, delivered);
    case Accept(id, req) => FreshPlace(s, id); AcceptAnswered(s, id, req);
    case NoWorker(id, delivered) => GiveUpAnswered(s, id, delivered);
    case PushTimeout(id, delivered) => GiveUpAnswered(s, id, delivered);
    case Reply(rid, delivered) => ReplyAnswered(s, rid, delivered);
    case Take(_) => MoveAnswered(s, e);
    case Pick(_, _) => MoveAnswered(s, e);
    case Push(_) => MoveAnswered(s, e);
    case PopHead(rid) => PopAnswered(s, rid);
    case Complete(rid) => CheckAnswered(s, rid);
    case Reject(rid) => CheckAnswered(s, rid);
    case _ => WorkAnswered(s, e);
  }

  lemma MoveAnswered(s: State, e: Event)
    requires Inv(s) && Enabled(s, e) && (e.Take? || e.Pick? || e.Push?)
    ensures Answered(Apply(s, e))
  {
    Unfinished(s, e);
    MovesOff(s, e);
    hide Placed, JobsMatch, Answered, Enabled, Apply, Off, Is;
    SilentAnswered(s, Apply(s, e), e.id);
  }

  lemma Unfinished(s: State, e: Event)
    requires Placed(s) && Enabled(s, e) && (e.Take? || e.Pick? || e.Push?)
    ensures !Is(s.place, e.id, Finished)
  {
    if e.Take? { InPoolHead(s); } else { LeaveDispatch(s, e.id, Finished); }
    hide Placed, PoolOk, TasksOk, ChansOk, ReturnsOk, Get;
  }

  lemma MovesOff(s: State, e: Event)
    requires Enabled(s, e) && (e.Take? || e.Pick? || e.Push?)
    ensures var s' := Apply(s, e);
            && s'.answers == s.answers && Off(s.requests, s'.requests, e.id)
            && Off(s.jobs, s'.jobs, e.id) && Off(s.place, s'.place, e.id)
  {
    hide Get, Add, KeyOf;
  }

  lemma FreshPlace(s: State, id: Id)
    requires Placed(s) && id !in s.requests
    ensures id !in s.place
  {
  }

  lemma PopAnswered(s: State, rid: Rid)
    requires Placed(s) && Answered(s) && Enabled(s, PopHead(rid))
    ensures Answered(OnPop(s, rid))
  {
    var k := KeyOfResult(s.inbound[rid].result);
    InChannelHead(s, k);
    hide Placed, Answered, Add;
    SilentAnswered(s, OnPop(s, rid), Get(s.chans, k)[0]);
  }

  lemma CheckAnswered(s: State, rid: Rid)
    requires Placed(s) && Answered(s) && Checking(s, rid)
    ensures Answered(OnComplete(s, rid)) && Answered(OnReject(s, rid))
  {
    var id := s.inbound[rid].at.job;
    LeaveReturn(s, rid, id);
    hide Placed, Answered;
    SilentAnswered(s, OnComplete(s, rid), id);
    SilentAnswered(s, OnReject(s, rid), id);
  }

  lemma WorkAnswered(s: State, e: Event)
    requires Inv(s) && Enabled(s, e) && (e.Begin? || e.Skip? || e.Send? || e.Store? || e.Arrive? || e.PopTimeout?)
    ensures Answered(Apply(s, e))
  {
    hide Placed, JobsMatch, AnswersOk, Get, Add, KeyOf, KeyOfResult;
    if e.Begin? {
      AnswersKeptDoWork(s.answers, s.requests, s.jobs, s.place, e.id, OnBegin(s, e.id).jobs[e.id]);
    } else if e.Store? {
      AnswersKeptDoWork(s.answers, s.requests, s.jobs, s.place, e.id, OnStore(s, e.id).jobs[e.id]);
    }
  }

  /** Every event of every goroutine keeps the invariant. */
  lemma InvKept(s: State, e: Event)
    requires Inv(s) && Enabled(s, e)
    ensures Inv(Apply(s, e))
  {
    hide Placed, JobsMatch, Answered, Apply, Enabled;
    PlacedKept(s, e);
    JobsKept(s, e);
    AnsweredKept(s, e);
  }
}
