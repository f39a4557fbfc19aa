/** One event at a time: when it is enabled, what it does, and when the ordering discipline allows it. */
module DispatchSteps {
  import opened Bytes
  import opened Dispatch
  import opened DispatchMatching

  ghost predicate Leads(s: State, e: Event, s': State) { Enabled(s, e) && Apply(s, e) == s' }

  lemma AcceptStep(s: State, id: Id, q: Request)
    requires id !in s.requests && !Empty(q) && |s.pool| < POOL_CAPACITY
    ensures Leads(s, Accept(id, q), OnAccept(s, id, q))
  {
  }

  lemma TakeStep(s: State, id: Id)
    requires s.pool != [] && s.pool[0] == id && id in s.requests && |s.tasks| < POOL_WORKERS
    ensures Leads(s, Take(id), OnTake(s, id))
  {
  }

  lemma NoWorkerStep(s: State, id: Id, delivered: bool)
    requires At(s, id, Picking)
    ensures Leads(s, NoWorker(id, delivered), OnGiveUp(s, id, delivered))
  {
  }

  lemma PickStep(s: State, id: Id, w: Wid)
    requires At(s, id, Picking) && id in s.requests
    ensures Leads(s, Pick(id, w), OnPick(s, id, w))
  {
  }

  lemma PushStep(s: State, id: Id)
    requires At(s, id, Pushing) && id in s.jobs && |Get(s.chans, KeyOf(s.jobs[id]))| < CHANNEL_CAPACITY
    ensures Leads(s, Push(id), OnPush(s, id))
  {
  }

  lemma BeginStep(s: State, id: Id)
    requires At(s, id, Starting) && id in s.jobs && s.jobs[id].status == INIT
    ensures Leads(s, Begin(id), OnBegin(s, id))
  {
  }

  lemma SendStep(s: State, id: Id, delivered: bool)
    requires At(s, id, Writing) && id in s.jobs
    ensures Leads(s, Send(id, delivered), OnSend(s, id, delivered))
  {
  }

  lemma StoreStep(s: State, id: Id)
    requires At(s, id, Storing) && id in s.jobs
    ensures Leads(s, Store(id), OnStore(s, id))
  {
  }

  lemma ArriveStep(s: State, rid: Rid, r: Result)
    requires rid !in s.inbound
    ensures Leads(s, Arrive(rid, r), OnArrive(s, rid, r))
  {
  }

  lemma PopStep(s: State, rid: Rid)
    requires rid in s.inbound && s.inbound[rid].at == Queued && Get(s.chans, KeyOfResult(s.inbound[rid].result)) != []
    ensures Leads(s, PopHead(rid), OnPop(s, rid))
  {
  }

  lemma CompleteStep(s: State, rid: Rid)
    requires Checking(s, rid) && Completes(s.jobs[s.inbound[rid].at.job], s.inbound[rid].result)
    ensures Leads(s, Complete(rid), OnComplete(s, rid))
  {
  }

  lemma RejectStep(s: State, rid: Rid)
    requires Checking(s, rid) && !Completes(s.jobs[s.inbound[rid].at.job], s.inbound[rid].result)
    ensures Leads(s, Reject(rid), OnReject(s, rid))
  {
  }

  lemma ReplyStep(s: State, rid: Rid, delivered: bool)
    requires rid in s.inbound && s.inbound[rid].at.Replying? && s.inbound[rid].at.job in s.jobs
    ensures Leads(s, Reply(rid, delivered), OnReply(s, rid, delivered))
  {
  }

  /** Most events are never out of order. */
  lemma FreeOrder(s: State, e: Event, compute: (ChanKey, Bytes) -> Bytes)
    requires !e.Push? && !e.Arrive? && !e.PopHead? && !e.PopTimeout? && (e.Send? ==> e.delivered)
    ensures Ordered(s, e, compute)
  {
  }
}
