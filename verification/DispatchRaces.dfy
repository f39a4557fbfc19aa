/**
 Concrete runs: without the ordering discipline clients get each other's results, and even with it a
 reply can be lost.
 */
module DispatchRaces {
  import opened Bytes
  import opened Dispatch
  import opened DispatchRuns
  import opened DispatchMatching
  import opened DispatchSteps

  function Last(ss: seq<State>): State { if ss == [] then START else ss[|ss| - 1] }

  lemma Extend(ss: seq<State>, es: seq<Event>, e: Event, s': State) returns (ss': seq<State>, es': seq<Event>)
    requires IsRun(ss, es) && Leads(Last(ss), e, s')
    ensures es' == es + [e] && ss' == ss + [s'] && IsRun(ss', es') && Last(ss') == s'
  {
    hide Apply, Enabled;
    es', ss' := es + [e], ss + [s'];
    forall i {:trigger es'[i]} | 0 <= i < |es'| ensures Step(ss'[i], es'[i], ss'[i + 1]) {
      if i < |es| { assert es'[i] == es[i] && Step(ss[i], es[i], ss[i + 1]); }
    }
  }

  lemma Begun() returns (ss: seq<State>, es: seq<Event>)
    ensures IsRun(ss, es) && Last(ss) == START
  {
    ss, es := [START], [];
  }

  function Made(w: Wid, q: Request): Job { Job(w, q.client, q.handle, q.params, INIT, NoResponse, []) }

  lemma TakenOne(ss: seq<State>, es: seq<Event>, id: Id, q: Request) returns (ss': seq<State>, es': seq<Event>)
    requires IsRun(ss, es) && var s := Last(ss);
             id !in s.requests && s.pool == [] && !Empty(q) && |s.tasks| < 8
    ensures IsRun(ss', es')
    ensures var s := Last(ss);
            Last(ss') == s.(requests := s.requests[id := q], tasks := s.tasks[id := Picking],
                            place := s.place[id := InDispatch])
  {
    hide IsRun, Leads;
    var s := Last(ss);
    AcceptStep(s, id, q);
    ss', es' := Extend(ss, es, Accept(id, q), OnAccept(s, id, q));
    var s1 := Last(ss');
    TakeStep(s1, id);
    ss', es' := Extend(ss', es', Take(id), OnTake(s1, id));
    assert s.place[id := InPool][id := InDispatch] == s.place[id := InDispatch];
  }

  lemma PickedOne(ss: seq<State>, es: seq<Event>, id: Id, q: Request, w: Wid)
    returns (ss': seq<State>, es': seq<Event>)
    requires IsRun(ss, es) && var s := Last(ss); At(s, id, Picking) && id in s.requests && s.requests[id] == q
    ensures IsRun(ss', es')
    ensures var s := Last(ss); Last(ss') == s.(tasks := s.tasks[id := Pushing], jobs := s.jobs[id := Made(w, q)])
  {
    hide IsRun, Leads;
    PickStep(Last(ss), id, w);
    ss', es' := Extend(ss, es, Pick(id, w), OnPick(Last(ss), id, w));
  }

  lemma PutOne(ss: seq<State>, es: seq<Event>, id: Id, j: Job) returns (ss': seq<State>, es': seq<Event>)
    requires IsRun(ss, es) && var s := Last(ss);
             At(s, id, Pushing) && id in s.jobs && s.jobs[id] == j && |Get(s.chans, KeyOf(j))| < 8
    ensures IsRun(ss', es') && Last(ss') == OnPush(Last(ss), id)
  {
    hide IsRun, Leads, OnPush;
    PushStep(Last(ss), id);
    ss', es' := Extend(ss, es, Push(id), OnPush(Last(ss), id));
  }

  /** A fresh frame goes through an empty pool and is pushed on the channel of worker `w`. */
  lemma PushedOne(ss: seq<State>, es: seq<Event>, id: Id, q: Request, w: Wid)
    returns (ss': seq<State>, es': seq<Event>)
    requires IsRun(ss, es) && var s := Last(ss);
             && id !in s.requests && id !in s.tasks && s.pool == [] && !Empty(q) && |s.tasks| < 8
             && |Get(s.chans, ChanKey(w, q.handle))| < 8
    ensures IsRun(ss', es')
    ensures var s, k := Last(ss), ChanKey(w, q.handle);
            Last(ss') == s.(requests := s.requests[id := q], tasks := s.tasks[id := Starting],
                            jobs := s.jobs[id := Made(w, q)], chans := Add(s.chans, k, id),
                            pushed := Add(s.pushed, k, id), place := s.place[id := InChannel(k)])
  {
    hide IsRun, Add, Get, Empty;
    var s, k := Last(ss), ChanKey(w, q.handle);
    ss', es' := GivenOne(ss, es, id, q, w);
    ss', es' := PutOne(ss', es', id, Made(w, q));
    Overwrite(s.tasks, id, Pushing, Starting);
    Overwrite(s.place, id, InDispatch, InChannel(k));
  }

  lemma Overwrite<V>(m: map<Id, V>, id: Id, a: V, b: V)
    ensures m[id := a][id := b] == m[id := b]
  {
  }

  /** A fresh frame goes through an empty pool and is given to worker `w`. */
  lemma GivenOne(ss: seq<State>, es: seq<Event>, id: Id, q: Request, w: Wid)
    returns (ss': seq<State>, es': seq<Event>)
    requires IsRun(ss, es) && var s := Last(ss);
             id !in s.requests && s.pool == [] && !Empty(q) && |s.tasks| < 8
    ensures IsRun(ss', es')
    ensures var s := Last(ss);
            Last(ss') == s.(requests := s.requests[id := q], tasks := s.tasks[id := Pushing],
                            jobs := s.jobs[id := Made(w, q)], place := s.place[id := InDispatch])
  {
    hide IsRun, Empty;
    ss', es' := TakenOne(ss, es, id, q);
    ss', es' := PickedOne(ss', es', id, q, w);
    Overwrite(Last(ss).tasks, id, Picking, Pushing);
  }

  /** A job after `doWork`. */
  function Answerable(j: Job): Job { j.(status := DOING, response := Response(j.func, j.params)) }

  /** `doWork` runs to its end and the frame to the worker is accepted. */
  lemma SentOne(ss: seq<State>, es: seq<Event>, id: Id) returns (ss': seq<State>, es': seq<Event>)
    requires IsRun(ss, es) && At(Last(ss), id, Starting) && id in Last(ss).jobs && Last(ss).jobs[id].status == INIT
    ensures IsRun(ss', es')
    ensures var s, j := Last(ss), Last(ss).jobs[id];
            Last(ss') == s.(tasks := s.tasks - {id}, sent := Add(s.sent, KeyOf(j), id),
                            jobs := s.jobs[id := Answerable(j)])
  {
    hide IsRun, Add, Leads;
    var s := Last(ss);
    BeginStep(s, id);
    ss', es' := Extend(ss, es, Begin(id), OnBegin(s, id));
    var s1 := Last(ss');
    SendStep(s1, id, true);
    ss', es' := Extend(ss', es', Send(id, true), OnSend(s1, id, true));
    var s2 := Last(ss');
    StoreStep(s2, id);
    ss', es' := Extend(ss', es', Store(id), OnStore(s2, id));
    assert s.tasks[id := Writing][id := Storing] - {id} == s.tasks - {id};
    assert Last(ss').jobs == s.jobs[id := Answerable(s.jobs[id])];
  }

  /** A result arrives and pops the head of its channel, whatever job it is about. */
  lemma PoppedOne(ss: seq<State>, es: seq<Event>, rid: Rid, r: Result) returns (ss': seq<State>, es': seq<Event>)
    requires IsRun(ss, es) && rid !in Last(ss).inbound && Get(Last(ss).chans, KeyOfResult(r)) != []
    ensures IsRun(ss', es') && es' == es + [Arrive(rid, r)] + [PopHead(rid)]
    ensures var s, s' := Last(ss), Last(ss'); var id := Get(s.chans, KeyOfResult(r))[0];
            && s'.jobs == s.jobs && s'.answers == s.answers && s'.requests == s.requests
            && rid in s'.inbound && s'.inbound[rid].result == r && s'.inbound[rid].at == Holding(id)
            && s'.pops == Add(s.pops, KeyOfResult(r), Pop(r.jobId, id))
  {
    hide IsRun, Add, Get, Leads;
    var s := Last(ss);
    ArriveStep(s, rid, r);
    ss', es' := Extend(ss, es, Arrive(rid, r), OnArrive(s, rid, r));
    var s1 := Last(ss');
    PopStep(s1, rid);
    ss', es' := Extend(ss', es', PopHead(rid), OnPop(s1, rid));
  }

  lemma RepliedOne(ss: seq<State>, es: seq<Event>, rid: Rid) returns (ss': seq<State>, es': seq<Event>)
    requires IsRun(ss, es) && var s := Last(ss);
             && Checking(s, rid) && Completes(s.jobs[s.inbound[rid].at.job], s.inbound[rid].result)
             && s.jobs[s.inbound[rid].at.job].ret == []
    ensures IsRun(ss', es') && es' == es + [Complete(rid)] + [Reply(rid, true)]
    ensures var s := Last(ss); var id, ret := s.inbound[rid].at.job, s.inbound[rid].result.ret;
            var res := s.jobs[id].response;
            && Last(ss').answers == s.answers + [Answer(id, ReturnData(res.handle, res.params, ret))]
            && Last(ss').pops == s.pops
  {
    hide IsRun, Leads;
    var s := Last(ss);
    var ret := s.inbound[rid].result.ret;
    assert [] + ret == ret;
    CompleteStep(s, rid);
    ss', es' := Extend(ss, es, Complete(rid), OnComplete(s, rid));
    var s1 := Last(ss');
    ReplyStep(s1, rid, true);
    ss', es' := Extend(ss', es', Reply(rid, true), OnReply(s1, rid, true));
  }

  /**
   Whatever job a result is about, the job at the head of the channel is completed with it as soon
   as the lengths of the parameters agree: its client is sent that result.
   */
  lemma HeadTakesAnyResult(ss: seq<State>, es: seq<Event>, rid: Rid, r: Result)
    returns (ss': seq<State>, es': seq<Event>)
    requires IsRun(ss, es) && rid !in Last(ss).inbound && Get(Last(ss).chans, KeyOfResult(r)) != []
    requires var s := Last(ss); var id := Get(s.chans, KeyOfResult(r))[0];
             id in s.jobs && Completes(s.jobs[id], r) && s.jobs[id].ret == []
    ensures IsRun(ss', es') && es' == es + [Arrive(rid, r)] + [PopHead(rid)] + [Complete(rid)] + [Reply(rid, true)]
    ensures var s := Last(ss); var id := Get(s.chans, KeyOfResult(r))[0]; var res := s.jobs[id].response;
            && Last(ss').answers == s.answers + [Answer(id, ReturnData(res.handle, res.params, r.ret))]
            && Last(ss').pops == Add(s.pops, KeyOfResult(r), Pop(r.jobId, id))
  {
    hide IsRun, Add, Get, Completes;
    ss', es' := PoppedOne(ss, es, rid, r);
    ss', es' := RepliedOne(ss', es', rid);
  }

  const F: Bytes := [102]
  const K := ChanKey(7, F)
  const Q: Request := Request(10, F, [1])
  const Q1: Request := Request(11, F, [2])

  /** Two clients have called `f` with parameters of equal length, and both jobs are with the worker. */
  lemma BothSent() returns (ss: seq<State>, es: seq<Event>)
    ensures IsRun(ss, es)
    ensures var s := Last(ss);
            && Get(s.chans, K) == [0, 1] && s.inbound == map[] && s.answers == [] && s.pops == map[]
            && 0 in s.jobs && s.jobs[0] == Answerable(Made(7, Q))
  {
    hide IsRun;
    ss, es := Begun();
    ss, es := PushedOne(ss, es, 0, Q, 7);
    ss, es := PushedOne(ss, es, 1, Q1, 7);
    ss, es := SentOne(ss, es, 0);
    ss, es := SentOne(ss, es, 1);
  }

  /** The worker answers the second job first, and the first client gets that answer. */
  lemma WrongClient(ret: Bytes) returns (ss: seq<State>, es: seq<Event>)
    ensures IsRun(ss, es) && Last(ss).answers == [Answer(0, ReturnData(F, [1], ret))]
    ensures !Matched(Get(Last(ss).pops, K))
    ensures Arrive(0, Result(7, F, 1, 1, ret)) in es
  {
    hide IsRun;
    var r := Result(7, F, 1, 1, ret);
    ss, es := BothSent();
    var es0 := es;
    ss, es := HeadTakesAnyResult(ss, es, 0, r);
    assert es[|es0|] == Arrive(0, r);
    assert Get(Last(ss).pops, K) == [Pop(1, 0)];
    assert Get(Last(ss).pops, K)[0] == Pop(1, 0);
  }

  // ---------------------------------------------------------------- ordered runs

  lemma ExtendOrdered(ss: seq<State>, es: seq<Event>, e: Event, s': State, compute: (ChanKey, Bytes) -> Bytes)
    returns (ss': seq<State>, es': seq<Event>)
    requires OrderedRun(ss, es, compute) && Leads(Last(ss), e, s') && Ordered(Last(ss), e, compute)
    ensures OrderedRun(ss', es', compute) && Last(ss') == s' && es' == es + [e]
  {
    hide Leads, Ordered, Step;
    ss', es' := Extend(ss, es, e, s');
    forall i {:trigger es'[i]} | 0 <= i < |es'| ensures Ordered(ss'[i], es'[i], compute) {
      if i < |es| { assert es'[i] == es[i] && Ordered(ss[i], es[i], compute); }
    }
  }

  /** One more event that is never out of order. */
  lemma ExtendFree(ss: seq<State>, es: seq<Event>, e: Event, s': State, compute: (ChanKey, Bytes) -> Bytes)
    returns (ss': seq<State>, es': seq<Event>)
    requires OrderedRun(ss, es, compute) && Leads(Last(ss), e, s')
    requires !e.Push? && !e.Arrive? && !e.PopHead? && !e.PopTimeout? && (e.Send? ==> e.delivered)
    ensures OrderedRun(ss', es', compute) && Last(ss') == s' && es' == es + [e]
  {
    hide OrderedRun, Leads, Ordered;
    FreeOrder(Last(ss), e, compute);
    ss', es' := ExtendOrdered(ss, es, e, s', compute);
  }

  lemma OrderedTaken(ss: seq<State>, es: seq<Event>, id: Id, q: Request, compute: (ChanKey, Bytes) -> Bytes)
    returns (ss': seq<State>, es': seq<Event>)
    requires OrderedRun(ss, es, compute) && var s := Last(ss);
             id !in s.requests && s.pool == [] && s.tasks == map[] && !Empty(q)
    ensures OrderedRun(ss', es', compute) && es' == es + [Accept(id, q)] + [Take(id)]
    ensures var s := Last(ss);
            Last(ss') == s.(requests := s.requests[id := q], tasks := map[id := Picking],
                            place := s.place[id := InDispatch])
  {
    hide OrderedRun, Leads;
    var s := Last(ss);
    AcceptStep(s, id, q);
    ss', es' := ExtendFree(ss, es, Accept(id, q), OnAccept(s, id, q), compute);
    var s1 := Last(ss');
    TakeStep(s1, id);
    ss', es' := ExtendFree(ss', es', Take(id), OnTake(s1, id), compute);
    assert s.place[id := InPool][id := InDispatch] == s.place[id := InDispatch];
  }

  lemma OrderedPicked(ss: seq<State>, es: seq<Event>, id: Id, q: Request, w: Wid, compute: (ChanKey, Bytes) -> Bytes)
    returns (ss': seq<State>, es': seq<Event>)
    requires OrderedRun(ss, es, compute) && var s := Last(ss);
             s.tasks == map[id := Picking] && id in s.requests && s.requests[id] == q
    ensures OrderedRun(ss', es', compute) && es' == es + [Pick(id, w)]
    ensures var s := Last(ss); Last(ss') == s.(tasks := map[id := Pushing], jobs := s.jobs[id := Made(w, q)])
  {
    hide OrderedRun, Leads;
    PickStep(Last(ss), id, w);
    ss', es' := ExtendFree(ss, es, Pick(id, w), OnPick(Last(ss), id, w), compute);
    assert Last(ss').tasks == map[id := Pushing];
  }

  lemma OrderedPush(ss: seq<State>, es: seq<Event>, id: Id, j: Job, compute: (ChanKey, Bytes) -> Bytes)
    returns (ss': seq<State>, es': seq<Event>)
    requires OrderedRun(ss, es, compute) && var s := Last(ss);
             s.tasks == map[id := Pushing] && id in s.jobs && s.jobs[id] == j && |Get(s.chans, KeyOf(j))| < 8
    ensures OrderedRun(ss', es', compute) && es' == es + [Push(id)]
    ensures var s, k := Last(ss), KeyOf(j);
            Last(ss') == s.(tasks := map[id := Starting], chans := Add(s.chans, k, id),
                            pushed := Add(s.pushed, k, id), place := s.place[id := InChannel(k)])
  {
    hide OrderedRun, Leads, Add, Get, KeyOf;
    PushStep(Last(ss), id);
    ss', es' := ExtendOrdered(ss, es, Push(id), OnPush(Last(ss), id), compute);
    assert Last(ss').tasks == map[id := Starting];
  }

  lemma OrderedWritten(ss: seq<State>, es: seq<Event>, id: Id, j: Job, compute: (ChanKey, Bytes) -> Bytes)
    returns (ss': seq<State>, es': seq<Event>)
    requires OrderedRun(ss, es, compute) && var s := Last(ss);
             s.tasks == map[id := Starting] && id in s.jobs && s.jobs[id] == j && j.status == INIT
    ensures OrderedRun(ss', es', compute) && es' == es + [Begin(id)] + [Send(id, true)]
    ensures var s := Last(ss);
            Last(ss') == s.(tasks := map[id := Storing], sent := Add(s.sent, KeyOf(j), id),
                            jobs := s.jobs[id := j.(status := DOING)])
  {
    hide OrderedRun, Leads, Add;
    var s := Last(ss);
    BeginStep(s, id);
    ss', es' := ExtendFree(ss, es, Begin(id), OnBegin(s, id), compute);
    var s1 := Last(ss');
    SendStep(s1, id, true);
    ss', es' := ExtendFree(ss', es', Send(id, true), OnSend(s1, id, true), compute);
    assert Last(ss').tasks == map[id := Storing];
  }

  /** The state of the one job `Q` after its push. */
  ghost predicate Pushed(s: State, t: Task, j: Job)
  {
    && s.requests == map[0 := Q] && s.pool == [] && s.tasks == map[0 := t] && s.jobs == map[0 := j]
    && s.chans.Keys == {K} && Get(s.chans, K) == [0] && s.inbound == map[] && s.answers == []
    && s.arrived == map[] && s.pops == map[]
  }

  lemma OrderedPushed(compute: (ChanKey, Bytes) -> Bytes) returns (ss: seq<State>, es: seq<Event>)
    ensures OrderedRun(ss, es, compute) && Pushed(Last(ss), Starting, Made(7, Q)) && Last(ss).sent == map[]
  {
    ss, es := [START], [];
    assert OrderedRun(ss, es, compute);
    hide OrderedRun;
    ss, es := OrderedTaken(ss, es, 0, Q, compute);
    ss, es := OrderedPicked(ss, es, 0, Q, 7, compute);
    ss, es := OrderedPush(ss, es, 0, Made(7, Q), compute);
  }

  lemma SentBeforeStored(compute: (ChanKey, Bytes) -> Bytes) returns (ss: seq<State>, es: seq<Event>)
    ensures OrderedRun(ss, es, compute) && Pushed(Last(ss), Storing, Made(7, Q).(status := DOING))
    ensures Get(Last(ss).sent, K) == [0]
  {
    hide OrderedRun;
    ss, es := OrderedPushed(compute);
    ss, es := OrderedWritten(ss, es, 0, Made(7, Q), compute);
  }

  lemma BackBeforeStored(compute: (ChanKey, Bytes) -> Bytes) returns (ss: seq<State>, es: seq<Event>)
    ensures OrderedRun(ss, es, compute)
    ensures var s := Last(ss);
            && s.requests == map[0 := Q] && s.pool == [] && s.tasks == map[0 := Storing] && s.answers == []
            && s.jobs == map[0 := Made(7, Q).(status := DOING)] && s.chans.Keys == {K} && Get(s.chans, K) == [0]
            && s.inbound == map[0 := Return(Result(7, F, 1, 0, compute(K, [1])), 0, Queued)] && s.pops == map[]
  {
    hide OrderedRun, Leads, Add;
    ss, es := SentBeforeStored(compute);
    var s, r := Last(ss), Result(7, F, 1, 0, compute(K, [1]));
    assert NextAnswer(s, r, compute);
    ArriveStep(s, 0, r);
    ss, es := ExtendOrdered(ss, es, Arrive(0, r), OnArrive(s, 0, r), compute);
  }

  /** The job popped by a result that came back too early, with the result about to be checked. */
  lemma PoppedTooEarly(compute: (ChanKey, Bytes) -> Bytes) returns (ss: seq<State>, es: seq<Event>)
    ensures OrderedRun(ss, es, compute)
    ensures var s := Last(ss);
            && s.requests == map[0 := Q] && s.pool == [] && s.tasks == map[0 := Storing] && s.answers == []
            && s.jobs == map[0 := Made(7, Q).(status := DOING)] && s.chans.Keys == {K} && Get(s.chans, K) == []
            && s.inbound.Keys == {0} && s.inbound[0].at == Holding(0)
  {
    hide OrderedRun, Leads;
    ss, es := BackBeforeStored(compute);
    var s1 := Last(ss);
    PopStep(s1, 0);
    ss, es := ExtendOrdered(ss, es, PopHead(0), OnPop(s1, 0), compute);
  }

  /**
   Even an ordered run can lose a reply: when the result comes back before `doWork` has stored the
   response in the job, the job is dropped and its client is never answered.
   */
  lemma LostReply(compute: (ChanKey, Bytes) -> Bytes) returns (ss: seq<State>, es: seq<Event>)
    ensures OrderedRun(ss, es, compute)
    ensures 0 in Last(ss).requests && Found(Last(ss), 0) == {} && Last(ss).answers == []
  {
    hide OrderedRun, Leads;
    ss, es := PoppedTooEarly(compute);
    var s := Last(ss);
    RejectStep(s, 0);
    ss, es := ExtendFree(ss, es, Reject(0), OnReject(s, 0), compute);
  }

  /** However that run goes on, the client is never answered. */
  lemma LostForGood(ss: seq<State>, es: seq<Event>, ss': seq<State>, es': seq<Event>)
    requires IsRun(ss, es) && 0 in Last(ss).requests && Found(Last(ss), 0) == {} && Last(ss).answers == []
    requires IsRun(ss', es') && ss <= ss'
    ensures !HasAnswer(Last(ss'), 0)
  {
    hide Found;
    assert Last(ss) == ss'[|ss| - 1];
    NeverAnswered(ss', es', |ss| - 1, |ss'| - 1, 0);
  }
}
