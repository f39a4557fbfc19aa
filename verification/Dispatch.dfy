/**
 Job dispatch and return as a step protocol.

 A client frame goes through the dispatch pool, a worker is chosen, the job is pushed on that
 worker's channel for the function, sent to the worker, and its result is matched with whatever
 job stands at the head of the channel when the result is routed. Every atomic action of every
 goroutine is one event, so a run is an arbitrary interleaving.
 */
module Dispatch {
  import opened Bytes

  type Id = nat       // one per client frame; the JobId (a random UUID) of the job made from it
  type Wid = nat      // WorkerId, the unique id of the worker's connection
  type Rid = nat      // one per result frame

  const POOL_WORKERS := 512
  const POOL_CAPACITY := 1024
  const CHANNEL_CAPACITY := 1024

  datatype Request = Request(client: nat, handle: Bytes, params: Bytes)

  datatype Status = INIT | DOING | DONE

  datatype Response = NoResponse | Response(handle: Bytes, params: Bytes)

  datatype Job = Job(worker: Wid, client: nat, func: Bytes, params: Bytes,
                     status: Status, response: Response, ret: Bytes)

  /** Where a dispatch goroutine stands: the last three are inside `doWork`, after the push. */
  datatype Task = Picking | Pushing | Starting | Writing | Storing

  datatype Result = Result(worker: Wid, handle: Bytes, paramsLen: nat, jobId: Id, ret: Bytes)

  datatype Routing = Queued | Holding(job: Id) | Replying(job: Id)

  /** `seqNo` counts the results that came before this one for the same channel. */
  datatype Return = Return(result: Result, seqNo: nat, at: Routing)

  datatype Frame = Error | RateLimit | CantDo | ReturnData(handle: Bytes, params: Bytes, ret: Bytes)

  datatype Answer = Answer(req: Id, frame: Frame)

  datatype ChanKey = ChanKey(worker: Wid, func: Bytes)

  datatype Pop = Pop(resultId: Id, job: Id)

  datatype Place = InPool | InDispatch | InChannel(key: ChanKey) | InReturn(rid: Rid) | Finished

  /** `place`, `pushed`, `sent`, `arrived` and `pops` record history; no step looks at them. */
  datatype State = State(
    requests: map<Id, Request>,
    pool: seq<Id>,
    tasks: map<Id, Task>,
    jobs: map<Id, Job>,
    chans: map<ChanKey, seq<Id>>,
    inbound: map<Rid, Return>,
    answers: seq<Answer>,
    place: map<Id, Place>,
    pushed: map<ChanKey, seq<Id>>,
    sent: map<ChanKey, seq<Id>>,
    arrived: map<ChanKey, seq<Id>>,
    pops: map<ChanKey, seq<Pop>>)

  const START := State(map[], [], map[], map[], map[], map[], [], map[], map[], map[], map[], map[])

  function Get<V>(m: map<ChanKey, seq<V>>, k: ChanKey): seq<V> { if k in m then m[k] else [] }

  function Add<V>(m: map<ChanKey, seq<V>>, k: ChanKey, v: V): map<ChanKey, seq<V>> { m[k := Get(m, k) + [v]] }

  function KeyOf(j: Job): ChanKey { ChanKey(j.worker, j.func) }

  function KeyOfResult(r: Result): ChanKey { ChanKey(r.worker, r.handle) }

  /** `delivered` says whether the connection's write queue took the frame. */
  datatype Event =
    | Refuse(id: Id, req: Request, delivered: bool)
    | Accept(id: Id, req: Request)
    | Take(id: Id)
    | NoWorker(id: Id, delivered: bool)
    | Pick(id: Id, worker: Wid)
    | Push(id: Id)
    | PushTimeout(id: Id, delivered: bool)
    | Begin(id: Id)
    | Skip(id: Id)
    | Send(id: Id, delivered: bool)
    | Store(id: Id)
    | Arrive(rid: Rid, result: Result)
    | PopHead(rid: Rid)
    | PopTimeout(rid: Rid)
    | Complete(rid: Rid)
    | Reject(rid: Rid)
    | Reply(rid: Rid, delivered: bool)

  /** Events of a frame before its job is pushed, of a job on its way to the worker, and of results. */
  predicate Front(e: Event) { e.Refuse? || e.Accept? || e.Take? || e.NoWorker? || e.Pick? || e.PushTimeout? }

  predicate Working(e: Event) { e.Push? || e.Begin? || e.Skip? || e.Send? || e.Store? }

  predicate Returning(e: Event)
  {
    e.Arrive? || e.PopHead? || e.PopTimeout? || e.Complete? || e.Reject? || e.Reply?
  }

  predicate At(s: State, id: Id, t: Task) { id in s.tasks && s.tasks[id] == t }

  predicate Empty(req: Request) { req.handle == [] || req.params == [] }

  predicate Checking(s: State, rid: Rid)
  {
    rid in s.inbound && s.inbound[rid].at.Holding? && s.inbound[rid].at.job in s.jobs
  }

  /** The tests of `returnData` on the popped job. */
  predicate Completes(j: Job, r: Result)
  {
    && j.worker == r.worker && j.status == DOING
    && j.response.Response? && j.response.handle == r.handle && |j.response.params| == r.paramsLen
  }

  predicate Enabled(s: State, e: Event)
  {
    match e
    case Refuse(id, req, _) => id !in s.requests && (Empty(req) || |s.pool| >= POOL_CAPACITY)
    case Accept(id, req) => id !in s.requests && !Empty(req) && |s.pool| < POOL_CAPACITY
    case Take(id) => |s.pool| > 0 && s.pool[0] == id && id in s.requests && |s.tasks| < POOL_WORKERS
    case NoWorker(id, _) => At(s, id, Picking)
    case Pick(id, _) => At(s, id, Picking) && id in s.requests
    case Push(id) => At(s, id, Pushing) && id in s.jobs && |Get(s.chans, KeyOf(s.jobs[id]))| < CHANNEL_CAPACITY
    case PushTimeout(id, _) => At(s, id, Pushing)
    case Begin(id) => At(s, id, Starting) && id in s.jobs && s.jobs[id].status == INIT
    case Skip(id) => At(s, id, Starting) && id in s.jobs && s.jobs[id].status != INIT
    case Send(id, _) => At(s, id, Writing) && id in s.jobs
    case Store(id) => At(s, id, Storing) && id in s.jobs
    case Arrive(rid, _) => rid !in s.inbound
    case PopHead(rid) =>
      rid in s.inbound && s.inbound[rid].at == Queued && Get(s.chans, KeyOfResult(s.inbound[rid].result)) != []
    case PopTimeout(rid) => rid in s.inbound && s.inbound[rid].at == Queued
    case Complete(rid) => Checking(s, rid) && Completes(s.jobs[s.inbound[rid].at.job], s.inbound[rid].result)
    case Reject(rid) => Checking(s, rid) && !Completes(s.jobs[s.inbound[rid].at.job], s.inbound[rid].result)
    case Reply(rid, _) => rid in s.inbound && s.inbound[rid].at.Replying? && s.inbound[rid].at.job in s.jobs
  }

  function Say(answers: seq<Answer>, id: Id, frame: Frame, delivered: bool): seq<Answer>
  {
    if delivered then answers + [Answer(id, frame)] else answers
  }

  /** `doJobAsync`: empty fields are an error, a full pool is a rate limit. */
  function OnRefuse(s: State, id: Id, req: Request, delivered: bool): State
  {
    s.(requests := s.requests[id := req], place := s.place[id := Finished],
       answers := Say(s.answers, id, if Empty(req) then Error else RateLimit, delivered))
  }

  function OnAccept(s: State, id: Id, req: Request): State
  {
    s.(requests := s.requests[id := req], place := s.place[id := InPool], pool := s.pool + [id])
  }

  function OnTake(s: State, id: Id): State
    requires s.pool != []
  {
    s.(pool := s.pool[1..], tasks := s.tasks[id := Picking], place := s.place[id := InDispatch])
  }

  /** No worker was found, or the channel stayed full: the client is told the job cannot be done. */
  function OnGiveUp(s: State, id: Id, delivered: bool): State
  {
    s.(tasks := s.tasks - {id}, place := s.place[id := Finished], answers := Say(s.answers, id, CantDo, delivered))
  }

  function OnPick(s: State, id: Id, w: Wid): State
    requires id in s.requests
  {
    var q := s.requests[id];
    s.(tasks := s.tasks[id := Pushing],
       jobs := s.jobs[id := Job(w, q.client, q.handle, q.params, INIT, NoResponse, [])])
  }

  function OnPush(s: State, id: Id): State
    requires id in s.jobs
  {
    var k := KeyOf(s.jobs[id]);
    s.(tasks := s.tasks[id := Starting], chans := Add(s.chans, k, id),
       place := s.place[id := InChannel(k)], pushed := Add(s.pushed, k, id))
  }

  function OnBegin(s: State, id: Id): State
    requires id in s.jobs
  {
    s.(tasks := s.tasks[id := Writing], jobs := s.jobs[id := s.jobs[id].(status := DOING)])
  }

  function OnSkip(s: State, id: Id): State { s.(tasks := s.tasks - {id}) }

  function OnSend(s: State, id: Id, delivered: bool): State
    requires id in s.jobs
  {
    s.(tasks := s.tasks[id := Storing],
       sent := if delivered then Add(s.sent, KeyOf(s.jobs[id]), id) else s.sent)
  }

  function OnStore(s: State, id: Id): State
    requires id in s.jobs
  {
    s.(tasks := s.tasks - {id},
       jobs := s.jobs[id := s.jobs[id].(response := Response(s.jobs[id].func, s.jobs[id].params))])
  }

  function OnArrive(s: State, rid: Rid, r: Result): State
  {
    var k := KeyOfResult(r);
    s.(inbound := s.inbound[rid := Return(r, |Get(s.arrived, k)|, Queued)], arrived := Add(s.arrived, k, r.jobId))
  }

  function OnPop(s: State, rid: Rid): State
    requires rid in s.inbound && Get(s.chans, KeyOfResult(s.inbound[rid].result)) != []
  {
    var k := KeyOfResult(s.inbound[rid].result);
    var ch := Get(s.chans, k);
    s.(chans := s.chans[k := ch[1..]], inbound := s.inbound[rid := s.inbound[rid].(at := Holding(ch[0]))],
       place := s.place[ch[0] := InReturn(rid)], pops := Add(s.pops, k, Pop(s.inbound[rid].result.jobId, ch[0])))
  }

  function OnPopTimeout(s: State, rid: Rid): State { s.(inbound := s.inbound - {rid}) }

  function OnComplete(s: State, rid: Rid): State
    requires Checking(s, rid)
  {
    var id := s.inbound[rid].at.job;
    s.(jobs := s.jobs[id := s.jobs[id].(status := DONE, ret := s.jobs[id].ret + s.inbound[rid].result.ret)],
       inbound := s.inbound[rid := s.inbound[rid].(at := Replying(id))])
  }

  function OnReject(s: State, rid: Rid): State
    requires Checking(s, rid)
  {
    s.(inbound := s.inbound - {rid}, place := s.place[s.inbound[rid].at.job := Finished])
  }

  function OnReply(s: State, rid: Rid, delivered: bool): State
    requires rid in s.inbound && s.inbound[rid].at.Replying? && s.inbound[rid].at.job in s.jobs
  {
    var id := s.inbound[rid].at.job;
    var j := s.jobs[id];
    var reply := if j.response.Response? then ReturnData(j.response.handle, j.response.params, j.ret) else Error;
    s.(inbound := s.inbound - {rid}, place := s.place[id := Finished], answers := Say(s.answers, id, reply, delivered))
  }

  function Apply(s: State, e: Event): State
    requires Enabled(s, e)
  {
    match e
    case Refuse(id, req, delivered) => OnRefuse(s, id, req, delivered)
    case Accept(id, req) => OnAccept(s, id, req)
    case Take(id) => OnTake(s, id)
    case NoWorker(id, delivered) => OnGiveUp(s, id, delivered)
    case Pick(id, w) => OnPick(s, id, w)
    case Push(id) => OnPush(s, id)
    case PushTimeout(id, delivered) => OnGiveUp(s, id, delivered)
    case Begin(id) => OnBegin(s, id)
    case Skip(id) => OnSkip(s, id)
    case Send(id, delivered) => OnSend(s, id, delivered)
    case Store(id) => OnStore(s, id)
    case Arrive(rid, r) => OnArrive(s, rid, r)
    case PopHead(rid) => OnPop(s, rid)
    case PopTimeout(rid) => OnPopTimeout(s, rid)
    case Complete(rid) => OnComplete(s, rid)
    case Reject(rid) => OnReject(s, rid)
    case Reply(rid, delivered) => OnReply(s, rid, delivered)
  }
}
