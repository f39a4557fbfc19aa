/**
 Ordered runs in which a Node client's calls get the wrong results: answers that cross, and the result of
 a call that an error answer had failed.
 */
module BrokerRaces {
  import opened Bytes
  import opened Dispatch
  import opened DispatchMatching
  import opened DispatchSteps
  import opened DispatchRaces
  import opened BrokerCalls
  import NC = NodeClient
  import NM = NodeMatching

  lemma OrderedSent(ss: seq<State>, es: seq<Event>, id: Id, j: Job, compute: (ChanKey, Bytes) -> Bytes)
    returns (ss': seq<State>, es': seq<Event>)
    requires OrderedRun(ss, es, compute) && var s := Last(ss);
             s.tasks == map[id := Starting] && id in s.jobs && s.jobs[id] == j && j.status == INIT
    ensures OrderedRun(ss', es', compute) && es' == es + [Begin(id)] + [Send(id, true)] + [Store(id)]
    ensures var s := Last(ss);
            Last(ss') == s.(tasks := map[], sent := Add(s.sent, KeyOf(j), id), jobs := s.jobs[id := Answerable(j)])
  {
    hide OrderedRun, Leads, Add, KeyOf;
    var s := Last(ss);
    ss', es' := OrderedWritten(ss, es, id, j, compute);
    var s1 := Last(ss');
    StoreStep(s1, id);
    ss', es' := ExtendFree(ss', es', Store(id), OnStore(s1, id), compute);
    assert s1.tasks - {id} == map[];
    assert s.jobs[id := j.(status := DOING)][id := Answerable(j)] == s.jobs[id := Answerable(j)];
  }

  /** A job that is with its worker. */
  function Doing(w: Wid, q: Request): Job { Answerable(Made(w, q)) }

  function Requested(es: seq<Event>, id: Id, q: Request, w: Wid): seq<Event>
  {
    es + [Accept(id, q)] + [Take(id)] + [Pick(id, w)] + [Push(id)] + [Begin(id)] + [Send(id, true)] + [Store(id)]
  }

  /** A call gets as far as its worker's channel. */
  lemma OrderedQueued(ss: seq<State>, es: seq<Event>, id: Id, q: Request, w: Wid,
                      compute: (ChanKey, Bytes) -> Bytes)
    returns (ss': seq<State>, es': seq<Event>)
    requires OrderedRun(ss, es, compute) && var s := Last(ss);
             && id !in s.requests && s.pool == [] && s.tasks == map[] && !Empty(q)
             && |Get(s.chans, ChanKey(w, q.handle))| < 8
    ensures OrderedRun(ss', es', compute)
    ensures es' == es + [Accept(id, q)] + [Take(id)] + [Pick(id, w)] + [Push(id)]
    ensures var s, k := Last(ss), ChanKey(w, q.handle);
            Last(ss') == s.(requests := s.requests[id := q], jobs := s.jobs[id := Made(w, q)],
                            tasks := map[id := Starting], chans := Add(s.chans, k, id),
                            pushed := Add(s.pushed, k, id), place := s.place[id := InChannel(k)])
  {
    hide OrderedRun, Add, Get, Empty;
    ss', es' := OrderedTaken(ss, es, id, q, compute);
    ss', es' := OrderedPicked(ss', es', id, q, w, compute);
    ss', es' := OrderedPush(ss', es', id, Made(w, q), compute);
    var s, k := Last(ss), ChanKey(w, q.handle);
    assert s.place[id := InDispatch][id := InChannel(k)] == s.place[id := InChannel(k)];
  }

  /** A call goes all the way to its worker. */
  lemma OrderedDispatched(ss: seq<State>, es: seq<Event>, id: Id, q: Request, w: Wid,
                          compute: (ChanKey, Bytes) -> Bytes)
    returns (ss': seq<State>, es': seq<Event>)
    requires OrderedRun(ss, es, compute) && var s := Last(ss);
             && id !in s.requests && s.pool == [] && s.tasks == map[] && !Empty(q)
             && |Get(s.chans, ChanKey(w, q.handle))| < 8
    ensures OrderedRun(ss', es', compute) && es' == Requested(es, id, q, w)
    ensures var s, k := Last(ss), ChanKey(w, q.handle);
            Last(ss') == s.(requests := s.requests[id := q], jobs := s.jobs[id := Doing(w, q)], tasks := map[],
                            chans := Add(s.chans, k, id), pushed := Add(s.pushed, k, id),
                            sent := Add(s.sent, k, id), place := s.place[id := InChannel(k)])
  {
    hide OrderedRun, Add, Get, Empty;
    ss', es' := OrderedQueued(ss, es, id, q, w, compute);
    ss', es' := OrderedSent(ss', es', id, Made(w, q), compute);
    var s := Last(ss);
    assert s.jobs[id := Made(w, q)][id := Doing(w, q)] == s.jobs[id := Doing(w, q)];
  }

  /** A call for which no worker is found: its client is told so. */
  lemma OrderedGivenUp(ss: seq<State>, es: seq<Event>, id: Id, q: Request, compute: (ChanKey, Bytes) -> Bytes)
    returns (ss': seq<State>, es': seq<Event>)
    requires OrderedRun(ss, es, compute) && var s := Last(ss);
             id !in s.requests && s.pool == [] && s.tasks == map[] && !Empty(q)
    ensures OrderedRun(ss', es', compute) && es' == es + [Accept(id, q)] + [Take(id)] + [NoWorker(id, true)]
    ensures var s := Last(ss);
            Last(ss') == s.(requests := s.requests[id := q], place := s.place[id := Finished],
                            answers := s.answers + [Answer(id, CantDo)])
  {
    hide OrderedRun, Leads, Empty;
    ss', es' := OrderedTaken(ss, es, id, q, compute);
    var s, s1 := Last(ss), Last(ss');
    NoWorkerStep(s1, id, true);
    ss', es' := ExtendFree(ss', es', NoWorker(id, true), OnGiveUp(s1, id, true), compute);
    assert s1.tasks - {id} == map[];
    assert s.place[id := InDispatch][id := Finished] == s.place[id := Finished];
  }

  function Verdict(w: Wid, id: Id, q: Request, compute: (ChanKey, Bytes) -> Bytes): Result
  {
    Result(w, q.handle, |q.params|, id, compute(ChanKey(w, q.handle), q.params))
  }

  /** The one job sent on a channel is still in it, and nothing has come back. */
  predicate Alone(s: State, k: ChanKey, id: Id)
  {
    Get(s.chans, k) == [id] && Get(s.sent, k) == [id] && Get(s.arrived, k) == [] && Get(s.pops, k) == []
  }

  predicate Waits(s: State, rid: Rid, id: Id, q: Request, w: Wid)
  {
    && rid !in s.inbound && id in s.requests && s.requests[id] == q && id in s.jobs && s.jobs[id] == Doing(w, q)
    && Alone(s, ChanKey(w, q.handle), id)
  }

  lemma OrderedArrived(ss: seq<State>, es: seq<Event>, rid: Rid, id: Id, q: Request, w: Wid,
                       compute: (ChanKey, Bytes) -> Bytes)
    returns (ss': seq<State>, es': seq<Event>)
    requires OrderedRun(ss, es, compute) && Waits(Last(ss), rid, id, q, w)
    ensures OrderedRun(ss', es', compute) && es' == es + [Arrive(rid, Verdict(w, id, q, compute))]
    ensures var s, r := Last(ss), Verdict(w, id, q, compute);
            Last(ss') == s.(inbound := s.inbound[rid := Return(r, 0, Queued)],
                            arrived := Add(s.arrived, KeyOfResult(r), id))
  {
    hide OrderedRun, Leads, Add;
    var s, r := Last(ss), Verdict(w, id, q, compute);
    assert NextAnswer(s, r, compute);
    ArriveStep(s, rid, r);
    ss', es' := ExtendOrdered(ss, es, Arrive(rid, r), OnArrive(s, rid, r), compute);
  }

  /** The result comes back and pops its job; other channels are as they were. */
  lemma OrderedPopped(ss: seq<State>, es: seq<Event>, rid: Rid, id: Id, q: Request, w: Wid,
                      compute: (ChanKey, Bytes) -> Bytes)
    returns (ss': seq<State>, es': seq<Event>)
    requires OrderedRun(ss, es, compute) && Waits(Last(ss), rid, id, q, w)
    ensures OrderedRun(ss', es', compute)
    ensures es' == es + [Arrive(rid, Verdict(w, id, q, compute))] + [PopHead(rid)]
    ensures var s, s', k := Last(ss), Last(ss'), ChanKey(w, q.handle);
            && s'.jobs == s.jobs && s'.answers == s.answers && s'.requests == s.requests && s'.sent == s.sent
            && s'.inbound == s.inbound[rid := Return(Verdict(w, id, q, compute), 0, Holding(id))]
            && Elsewhere(s, s', k)
  {
    hide OrderedRun, Leads;
    ss', es' := OrderedArrived(ss, es, rid, id, q, w, compute);
    var s1 := Last(ss');
    PopStep(s1, rid);
    ss', es' := ExtendOrdered(ss', es', PopHead(rid), OnPop(s1, rid), compute);
  }

  ghost predicate Elsewhere(s: State, s': State, k: ChanKey)
  {
    forall x :: x != k ==>
      && Get(s'.chans, x) == Get(s.chans, x) && Get(s'.arrived, x) == Get(s.arrived, x)
      && Get(s'.pops, x) == Get(s.pops, x)
  }

  predicate Held(s: State, rid: Rid, id: Id, q: Request, w: Wid, compute: (ChanKey, Bytes) -> Bytes)
  {
    && rid in s.inbound && s.inbound[rid] == Return(Verdict(w, id, q, compute), 0, Holding(id))
    && id in s.jobs && s.jobs[id] == Doing(w, q)
  }

  lemma OrderedCompleted(ss: seq<State>, es: seq<Event>, rid: Rid, id: Id, q: Request, w: Wid,
                         compute: (ChanKey, Bytes) -> Bytes)
    returns (ss': seq<State>, es': seq<Event>)
    requires OrderedRun(ss, es, compute) && Held(Last(ss), rid, id, q, w, compute)
    ensures OrderedRun(ss', es', compute) && es' == es + [Complete(rid)]
    ensures var s, ret := Last(ss), compute(ChanKey(w, q.handle), q.params);
            Last(ss') == s.(jobs := s.jobs[id := Doing(w, q).(status := DONE, ret := ret)],
                            inbound := s.inbound[rid := Return(Verdict(w, id, q, compute), 0, Replying(id))])
  {
    hide OrderedRun, Leads;
    var ret := compute(ChanKey(w, q.handle), q.params);
    assert [] + ret == ret;
    CompleteStep(Last(ss), rid);
    ss', es' := ExtendFree(ss, es, Complete(rid), OnComplete(Last(ss), rid), compute);
  }

  lemma OrderedReplied(ss: seq<State>, es: seq<Event>, rid: Rid, id: Id, q: Request, w: Wid,
                       compute: (ChanKey, Bytes) -> Bytes)
    returns (ss': seq<State>, es': seq<Event>)
    requires OrderedRun(ss, es, compute) && Held(Last(ss), rid, id, q, w, compute)
    ensures OrderedRun(ss', es', compute) && es' == es + [Complete(rid)] + [Reply(rid, true)]
    ensures var s, s', ret := Last(ss), Last(ss'), compute(ChanKey(w, q.handle), q.params);
            && s'.answers == s.answers + [Answer(id, ReturnData(q.handle, q.params, ret))]
            && s'.requests == s.requests && s'.chans == s.chans && s'.sent == s.sent && s'.arrived == s.arrived
            && s'.pops == s.pops && s'.inbound == s.inbound - {rid}
            && forall x :: x in s.jobs && x != id ==> x in s'.jobs && s'.jobs[x] == s.jobs[x]
  {
    hide OrderedRun, Leads, Verdict;
    ss', es' := OrderedCompleted(ss, es, rid, id, q, w, compute);
    var s1 := Last(ss');
    ReplyStep(s1, rid, true);
    ss', es' := ExtendFree(ss', es', Reply(rid, true), OnReply(s1, rid, true), compute);
    assert s1.inbound - {rid} == Last(ss).inbound - {rid};
  }

  function Answered(es: seq<Event>, rid: Rid, r: Result): seq<Event>
  {
    es + [Arrive(rid, r)] + [PopHead(rid)] + [Complete(rid)] + [Reply(rid, true)]
  }

  lemma RequestedIds(es: seq<Event>, id: Id, q: Request, w: Wid, c: nat, h: Bytes)
    ensures RequestIds(Requested(es, id, q, w), c, h)
         == RequestIds(es, c, h) + if q.client == c && q.handle == h then [id] else []
  {
    hide RequestIds;
    var e1 := es + [Accept(id, q)];
    var e2 := e1 + [Take(id)];
    var e3 := e2 + [Pick(id, w)];
    var e4 := e3 + [Push(id)];
    var e5 := e4 + [Begin(id)];
    var e6 := e5 + [Send(id, true)];
    RequestIdsPush(es, Accept(id, q), c, h);
    RequestIdsPush(e1, Take(id), c, h);
    RequestIdsPush(e2, Pick(id, w), c, h);
    RequestIdsPush(e3, Push(id), c, h);
    RequestIdsPush(e4, Begin(id), c, h);
    RequestIdsPush(e5, Send(id, true), c, h);
    RequestIdsPush(e6, Store(id), c, h);
  }

  lemma AnsweredIds(es: seq<Event>, rid: Rid, r: Result, c: nat, h: Bytes)
    ensures RequestIds(Answered(es, rid, r), c, h) == RequestIds(es, c, h)
  {
    hide RequestIds;
    var e1 := es + [Arrive(rid, r)];
    var e2 := e1 + [PopHead(rid)];
    var e3 := e2 + [Complete(rid)];
    RequestIdsPush(es, Arrive(rid, r), c, h);
    RequestIdsPush(e1, PopHead(rid), c, h);
    RequestIdsPush(e2, Complete(rid), c, h);
    RequestIdsPush(e3, Reply(rid, true), c, h);
  }

  lemma TwoAnswers(a: Answer, b: Answer, requests: map<Id, Request>)
    requires IsTo(requests, a, 10) && IsTo(requests, b, 10)
    ensures AnswersTo([a, b], requests, 10) == [a, b]
  {
    assert [a, b][..1] == [a] && [a][..0] == [];
    assert AnswersTo([a], requests, 10) == [a];
  }

  const Q0: Request := Request(10, F, [1])
  const Q2: Request := Request(10, F, [2])

  function First(compute: (ChanKey, Bytes) -> Bytes): Frame { ReturnData(F, [1], compute(ChanKey(7, F), [1])) }

  function Second(compute: (ChanKey, Bytes) -> Bytes): Frame { ReturnData(F, [2], compute(ChanKey(8, F), [2])) }

  // ---------------------------------------------------------------- crossed answers

  /** Client 10 has called `f` twice; the jobs are with workers 7 and 8. */
  lemma TwoWorkers(compute: (ChanKey, Bytes) -> Bytes) returns (ss: seq<State>, es: seq<Event>)
    ensures OrderedRun(ss, es, compute) && es == Requested(Requested([], 0, Q0, 7), 1, Q2, 8)
    ensures var s := Last(ss);
            && s.answers == [] && 0 in s.requests && s.requests[0] == Q0 && s.inbound == map[]
            && Waits(s, 0, 1, Q2, 8) && 0 in s.jobs && s.jobs[0] == Doing(7, Q0) && Alone(s, ChanKey(7, F), 0)
  {
    ss, es := [START], [];
    assert OrderedRun(ss, es, compute);
    hide OrderedRun, Made, Answerable, Requested;
    ss, es := OrderedDispatched(ss, es, 0, Q0, 7, compute);
    ss, es := OrderedDispatched(ss, es, 1, Q2, 8, compute);
  }

  lemma SecondReplied(compute: (ChanKey, Bytes) -> Bytes) returns (ss: seq<State>, es: seq<Event>)
    ensures OrderedRun(ss, es, compute)
    ensures es == Answered(Requested(Requested([], 0, Q0, 7), 1, Q2, 8), 0, Verdict(8, 1, Q2, compute))
    ensures var s := Last(ss);
            && s.requests.Keys >= {0, 1} && s.requests[0] == Q0 && s.requests[1] == Q2
            && s.answers == [Answer(1, Second(compute))] && Waits(s, 1, 0, Q0, 7)
  {
    hide OrderedRun, Doing, Verdict, Requested;
    ss, es := TwoWorkers(compute);
    ss, es := OrderedPopped(ss, es, 0, 1, Q2, 8, compute);
    ss, es := OrderedReplied(ss, es, 0, 1, Q2, 8, compute);
  }

  /** Worker 8 answers first: the client is answered in the order 1, 0. */
  lemma Crossed(compute: (ChanKey, Bytes) -> Bytes) returns (ss: seq<State>, es: seq<Event>)
    ensures OrderedRun(ss, es, compute)
    ensures es == Answered(Answered(Requested(Requested([], 0, Q0, 7), 1, Q2, 8), 0, Verdict(8, 1, Q2, compute)),
                           1, Verdict(7, 0, Q0, compute))
    ensures Last(ss).requests.Keys >= {0, 1} && Last(ss).requests[0] == Q0 && Last(ss).requests[1] == Q2
    ensures Last(ss).answers == [Answer(1, Second(compute)), Answer(0, First(compute))]
  {
    hide OrderedRun, Doing, Verdict, Requested;
    ss, es := SecondReplied(compute);
    ss, es := OrderedPopped(ss, es, 1, 0, Q0, 7, compute);
    ss, es := OrderedReplied(ss, es, 1, 0, Q0, 7, compute);
  }

  /** What the client then does: two calls, two replies. */
  function CrossedLog(compute: (ChanKey, Bytes) -> Bytes): NM.Log
  {
    [NM.Called(F, NC.Call(0, true)), NM.Called(F, NC.Call(1, true)),
     NM.Replied(F, 1, Packet(Second(compute))), NM.Replied(F, 0, Packet(First(compute)))]
  }

  /** A log, entry by entry, as the lists and the client see it. */
  lemma LogStep(t: NM.Log, e: NM.Entry, h: Bytes)
    ensures NM.CallIds(t + [e], h) == NM.CallIds(t, h) + if NM.CallOn(e, h) then [e.call.id] else []
    ensures NM.ReplyIds(t + [e], h) == NM.ReplyIds(t, h) + if NM.ReplyOn(e, h) then [e.id] else []
    ensures HeardOf(t + [e]) == HeardOf(t) + if IsAnswer(e) then [e] else []
  {
    NM.ListsPush(t, e, h);
    HeardPush(t, e);
  }

  lemma NothingYet(h: Bytes)
    ensures NM.CallIds([], h) == [] && NM.ReplyIds([], h) == [] && HeardOf([]) == []
    ensures NM.Play([]) == NC.Calls(map[], map[], map[]) && NM.Given([], h) == []
  {
  }

  lemma CrossedLists(compute: (ChanKey, Bytes) -> Bytes, h: Bytes)
    ensures var log := CrossedLog(compute);
            && HeardOf(log) == [log[2], log[3]] && NM.CallIds(log, h) == (if h == F then [0, 1] else [])
            && NM.ReplyIds(log, h) == (if h == F then [1, 0] else [])
  {
    hide Packet, NM.CallIds, NM.ReplyIds, HeardOf;
    var log := CrossedLog(compute);
    NothingYet(h);
    LogStep([], log[0], h);
    LogStep([] + [log[0]], log[1], h);
    LogStep([] + [log[0]] + [log[1]], log[2], h);
    LogStep([] + [log[0]] + [log[1]] + [log[2]], log[3], h);
    assert log == [] + [log[0]] + [log[1]] + [log[2]] + [log[3]];
  }

  lemma CrossedCausal(compute: (ChanKey, Bytes) -> Bytes)
    ensures NM.Causal(CrossedLog(compute))
  {
    hide Packet;
    var log := CrossedLog(compute);
    assert NM.CallOn(log[0], F) && log[0].call.id == 0 && NM.CallOn(log[1], F) && log[1].call.id == 1;
  }

  lemma PlayStep(t: NM.Log, e: NM.Entry, h: Bytes)
    ensures var c, c' := NM.Play(t), NM.Play(t + [e]);
            var q, g := NC.Get(c.pending, h), NC.Get(c.gone, h);
            && NC.Get(c'.pending, h) == (if NM.Fails(e) then [] else if NM.CallOn(e, h) then q + [e.call]
                                         else if NM.ReplyOn(e, h) && q != [] then q[1..] else q)
            && NC.Get(c'.gone, h) == if NM.Fails(e) then g + NC.Failures(q)
                                     else if NM.ReplyOn(e, h) && q != [] then g + [NC.Settled(q[0], e.packet)] else g
  {
    NM.PlayPush(t, e);
    NM.QueueStep(NM.Play(t), e, h);
    NM.GoneStep(NM.Play(t), e, h);
  }

  lemma GivenStep(t: NM.Log, e: NM.Entry, h: Bytes)
    requires NM.ReplyOn(e, h) && NC.Get(NM.Play(t).pending, h) != []
    ensures NM.Given(t + [e], h) == NM.Given(t, h) + [NM.Pair(NC.Get(NM.Play(t).pending, h)[0], e.id, e.packet)]
  {
    hide NM.Play;
    assert (t + [e])[..|t|] == t;
  }

  predicate On(c: NC.Calls, h: Bytes, pending: seq<NC.Call>, gone: seq<NC.Gone>)
  {
    NC.Get(c.pending, h) == pending && NC.Get(c.gone, h) == gone
  }

  lemma CallStep(t: NM.Log, e: NM.Entry, h: Bytes, q: seq<NC.Call>, g: seq<NC.Gone>)
    requires On(NM.Play(t), h, q, g) && e.Called?
    ensures On(NM.Play(t + [e]), h, if e.h == h then q + [e.call] else q, g)
  {
    PlayStep(t, e, h);
    hide NM.Play;
  }

  /** The only call that waits is rejected. */
  lemma ErrStep(t: NM.Log, e: NM.Entry, h: Bytes, id: nat)
    requires On(NM.Play(t), h, [NC.Call(id, true)], []) && e.Erred?
    ensures On(NM.Play(t + [e]), h, [], [NC.Rejected(NC.Call(id, true))])
  {
    PlayStep(t, e, h);
    hide NM.Play;
    assert [] + NC.Failures([NC.Call(id, true)]) == [NC.Rejected(NC.Call(id, true))];
  }

  lemma SettleStep(t: NM.Log, e: NM.Entry, h: Bytes, q: seq<NC.Call>, g: seq<NC.Gone>)
    requires On(NM.Play(t), h, q, g) && NM.ReplyOn(e, h) && q != []
    ensures On(NM.Play(t + [e]), h, q[1..], g + [NC.Settled(q[0], e.packet)])
    ensures NM.Given(t + [e], h) == NM.Given(t, h) + [NM.Pair(q[0], e.id, e.packet)]
  {
    PlayStep(t, e, h);
    GivenStep(t, e, h);
    hide NM.Play, NM.Given;
  }

  lemma NotOwn(t: NM.Log, e: NM.Entry, h: Bytes, call: NC.Call)
    requires NM.ReplyOn(e, h) && call.id != e.id
    requires NM.Given(t + [e], h) == NM.Given(t, h) + [NM.Pair(call, e.id, e.packet)]
    ensures !NM.AllOwn(t + [e], h)
  {
    hide NM.Given;
    var ps := NM.Given(t + [e], h);
    assert ps[|ps| - 1] == NM.Pair(call, e.id, e.packet);
  }

  /** Each of the two calls is settled with the result of the other. */
  lemma CrossedCalls(compute: (ChanKey, Bytes) -> Bytes)
    ensures NC.Get(NM.Play(CrossedLog(compute)).gone, F) ==
            [NC.Settled(NC.Call(0, true), Packet(Second(compute))),
             NC.Settled(NC.Call(1, true), Packet(First(compute)))]
    ensures !NM.AllOwn(CrossedLog(compute), F)
  {
    hide Packet, NM.Play, NM.Given;
    var log := CrossedLog(compute);
    var x, y := NC.Call(0, true), NC.Call(1, true);
    var t := [] + [log[0]] + [log[1]];
    BothWait(log[0], log[1]);
    SettleStep(t, log[2], F, [x, y], []);
    SettleStep(t + [log[2]], log[3], F, [y], [NC.Settled(x, log[2].packet)]);
    assert log == t + [log[2]] + [log[3]];
    NotOwn(t + [log[2]], log[3], F, y);
  }

  lemma BothWait(a: NM.Entry, b: NM.Entry)
    requires a == NM.Called(F, NC.Call(0, true)) && b == NM.Called(F, NC.Call(1, true))
    ensures On(NM.Play([] + [a] + [b]), F, [NC.Call(0, true), NC.Call(1, true)], [])
  {
    NothingYet(F);
    assert On(NM.Play([]), F, [], []);
    hide *;
    CallStep([], a, F, [], []);
    assert [] + [NC.Call(0, true)] == [NC.Call(0, true)];
    CallStep([] + [a], b, F, [NC.Call(0, true)], []);
    assert [NC.Call(0, true)] + [NC.Call(1, true)] == [NC.Call(0, true), NC.Call(1, true)];
  }

  lemma CrossedIds(compute: (ChanKey, Bytes) -> Bytes, h: Bytes)
    ensures var e2 := Requested(Requested([], 0, Q0, 7), 1, Q2, 8);
            var es := Answered(Answered(e2, 0, Verdict(8, 1, Q2, compute)), 1, Verdict(7, 0, Q0, compute));
            RequestIds(es, 10, h) == if h == F then [0, 1] else []
  {
    var e1 := Requested([], 0, Q0, 7);
    var e2 := Requested(e1, 1, Q2, 8);
    var e3 := Answered(e2, 0, Verdict(8, 1, Q2, compute));
    assert RequestIds([], 10, h) == [];
    hide RequestIds, Requested, Answered;
    RequestedIds([], 0, Q0, 7, 10, h);
    RequestedIds(e1, 1, Q2, 8, 10, h);
    AnsweredIds(e2, 0, Verdict(8, 1, Q2, compute), 10, h);
    AnsweredIds(e3, 1, Verdict(7, 0, Q0, compute), 10, h);
  }

  lemma CrossedHeard(compute: (ChanKey, Bytes) -> Bytes, s: State)
    requires s.answers == [Answer(1, Second(compute)), Answer(0, First(compute))]
    requires s.requests.Keys >= {0, 1} && s.requests[0] == Q0 && s.requests[1] == Q2
    ensures AllHeard(HeardOf(CrossedLog(compute)), AnswersTo(s.answers, s.requests, 10))
  {
    hide Packet, AnswersTo, HeardOf, NM.CallIds, NM.ReplyIds;
    var log := CrossedLog(compute);
    TwoAnswers(s.answers[0], s.answers[1], s.requests);
    CrossedLists(compute, F);
    assert Hears(log[2], s.answers[0]) && Hears(log[3], s.answers[1]);
  }

  /** An ordered run and a log of its client that fits it, in which both calls get the other's result. */
  lemma WrongCall(compute: (ChanKey, Bytes) -> Bytes) returns (ss: seq<State>, es: seq<Event>)
    ensures OrderedRun(ss, es, compute) && Fits(CrossedLog(compute), Last(ss), es, 10)
    ensures !NM.AllOwn(CrossedLog(compute), F)
    ensures NC.Get(NM.Play(CrossedLog(compute)).gone, F) ==
            [NC.Settled(NC.Call(0, true), Packet(Second(compute))),
             NC.Settled(NC.Call(1, true), Packet(First(compute)))]
  {
    hide OrderedRun, Packet, Requested, Answered, Verdict, CrossedLog, First, Second, AllHeard, AnswersTo, HeardOf;
    hide RequestIds, NM.Causal, NM.CallIds, NM.ReplyIds, NM.Play, NM.AllOwn;
    ss, es := Crossed(compute);
    forall h ensures RequestIds(es, 10, h) <= NM.CallIds(CrossedLog(compute), h) {
      CrossedIds(compute, h);
      CrossedLists(compute, h);
    }
    CrossedHeard(compute, Last(ss));
    CrossedCausal(compute);
    CrossedCalls(compute);
  }

  // ---------------------------------------------------------------- a stray result

  const G: Bytes := [103]
  const QG: Request := Request(10, G, [3])

  function Strayed(compute: (ChanKey, Bytes) -> Bytes): seq<Event>
  {
    var e1 := Requested([], 0, Q0, 7) + [Accept(1, QG)] + [Take(1)] + [NoWorker(1, true)] + [Accept(2, Q2)];
    Answered(e1, 0, Verdict(7, 0, Q0, compute))
  }

  /** `f` is with its worker, `g` has none and the client is told so; its next call of `f` waits in the pool. */
  lemma SecondFails(compute: (ChanKey, Bytes) -> Bytes) returns (ss: seq<State>, es: seq<Event>)
    ensures OrderedRun(ss, es, compute)
    ensures es == Requested([], 0, Q0, 7) + [Accept(1, QG)] + [Take(1)] + [NoWorker(1, true)] + [Accept(2, Q2)]
    ensures var s := Last(ss);
            && s.answers == [Answer(1, CantDo)] && Waits(s, 0, 0, Q0, 7)
            && s.requests == map[0 := Q0, 1 := QG, 2 := Q2]
  {
    ss, es := [START], [];
    assert OrderedRun(ss, es, compute);
    hide OrderedRun, Made, Answerable, Requested, Leads;
    ss, es := OrderedDispatched(ss, es, 0, Q0, 7, compute);
    ss, es := OrderedGivenUp(ss, es, 1, QG, compute);
    var s := Last(ss);
    AcceptStep(s, 2, Q2);
    ss, es := ExtendFree(ss, es, Accept(2, Q2), OnAccept(s, 2, Q2), compute);
  }

  lemma FirstReturns(compute: (ChanKey, Bytes) -> Bytes) returns (ss: seq<State>, es: seq<Event>)
    ensures OrderedRun(ss, es, compute) && es == Strayed(compute)
    ensures Last(ss).requests == map[0 := Q0, 1 := QG, 2 := Q2]
    ensures Last(ss).answers == [Answer(1, CantDo), Answer(0, First(compute))]
  {
    hide OrderedRun, Doing, Verdict, Requested;
    ss, es := SecondFails(compute);
    ss, es := OrderedPopped(ss, es, 0, 0, Q0, 7, compute);
    ss, es := OrderedReplied(ss, es, 0, 0, Q0, 7, compute);
  }

  /** The client calls `f` and `g`, hears that `g` cannot be done, calls `f` again, and hears the first result. */
  function StrayLog(compute: (ChanKey, Bytes) -> Bytes): NM.Log
  {
    [NM.Called(F, NC.Call(0, true)), NM.Called(G, NC.Call(1, true)), NM.Erred(1), NM.Called(F, NC.Call(2, true)),
     NM.Replied(F, 0, Packet(First(compute)))]
  }

  lemma StrayLists(compute: (ChanKey, Bytes) -> Bytes, h: Bytes)
    ensures var log := StrayLog(compute);
            && HeardOf(log) == [log[2], log[4]] && NM.ReplyIds(log, h) == (if h == F then [0] else [])
            && NM.CallIds(log, h) == (if h == F then [0, 2] else if h == G then [1] else [])
  {
    hide Packet, NM.CallIds, NM.ReplyIds, HeardOf;
    var log := StrayLog(compute);
    var t2 := [] + [log[0]] + [log[1]];
    var t4 := t2 + [log[2]] + [log[3]];
    NothingYet(h);
    LogStep([], log[0], h);
    LogStep([] + [log[0]], log[1], h);
    LogStep(t2, log[2], h);
    LogStep(t2 + [log[2]], log[3], h);
    LogStep(t4, log[4], h);
    assert log == t4 + [log[4]];
  }

  lemma StrayCausal(compute: (ChanKey, Bytes) -> Bytes)
    ensures NM.Causal(StrayLog(compute))
  {
    hide Packet;
    var log := StrayLog(compute);
    assert NM.CallOn(log[0], F) && log[0].call.id == 0;
  }

  /** The error answer rejects the first call of `f`; the second one waits. */
  lemma StrayWaits(a: NM.Entry, b: NM.Entry, c: NM.Entry, d: NM.Entry, f: Bytes, x: nat)
    requires a.Called? && a.h == f && a.call == NC.Call(x, true) && b.Called? && b.h != f && c.Erred?
    requires d.Called? && d.h == f
    ensures On(NM.Play([] + [a] + [b] + [c] + [d]), f, [d.call], [NC.Rejected(NC.Call(x, true))])
  {
    NothingYet(f);
    assert On(NM.Play([]), f, [], []);
    hide *;
    CallStep([], a, f, [], []);
    NoCallBefore(a.call);
    CallStep([] + [a], b, f, [a.call], []);
    ErrStep([] + [a] + [b], c, f, x);
    CallStep([] + [a] + [b] + [c], d, f, [], [NC.Rejected(NC.Call(x, true))]);
    NoCallBefore(d.call);
  }

  lemma NoCallBefore(call: NC.Call)
    ensures [] + [call] == [call]
  {
  }

  lemma Handles()
    ensures F != G
  {
    assert F[0] != G[0];
  }

  /** The first call is rejected, and the second is settled with the first's result. */
  lemma StrayCalls(compute: (ChanKey, Bytes) -> Bytes)
    ensures NC.Get(NM.Play(StrayLog(compute)).gone, F) ==
            [NC.Rejected(NC.Call(0, true)), NC.Settled(NC.Call(2, true), Packet(First(compute)))]
    ensures !NM.AllOwn(StrayLog(compute), F)
  {
    hide Packet, NM.Play, NM.Given;
    var log := StrayLog(compute);
    var t := [] + [log[0]] + [log[1]] + [log[2]] + [log[3]];
    Handles();
    StrayWaits(log[0], log[1], log[2], log[3], F, 0);
    SettleStep(t, log[4], F, [NC.Call(2, true)], [NC.Rejected(NC.Call(0, true))]);
    assert log == t + [log[4]];
    NotOwn(t, log[4], F, NC.Call(2, true));
  }

  lemma StrayIds(compute: (ChanKey, Bytes) -> Bytes, h: Bytes)
    ensures RequestIds(Strayed(compute), 10, h) == if h == F then [0, 2] else if h == G then [1] else []
  {
    var e1 := Requested([], 0, Q0, 7);
    var e2 := e1 + [Accept(1, QG)];
    var e3 := e2 + [Take(1)];
    var e4 := e3 + [NoWorker(1, true)];
    var e5 := e4 + [Accept(2, Q2)];
    assert RequestIds([], 10, h) == [];
    hide RequestIds, Requested, Answered;
    RequestedIds([], 0, Q0, 7, 10, h);
    RequestIdsPush(e1, Accept(1, QG), 10, h);
    RequestIdsPush(e2, Take(1), 10, h);
    RequestIdsPush(e3, NoWorker(1, true), 10, h);
    RequestIdsPush(e4, Accept(2, Q2), 10, h);
    AnsweredIds(e5, 0, Verdict(7, 0, Q0, compute), 10, h);
  }

  lemma StrayHeard(compute: (ChanKey, Bytes) -> Bytes, s: State)
    requires s.answers == [Answer(1, CantDo), Answer(0, First(compute))]
    requires s.requests == map[0 := Q0, 1 := QG, 2 := Q2]
    ensures AllHeard(HeardOf(StrayLog(compute)), AnswersTo(s.answers, s.requests, 10))
  {
    hide Packet, AnswersTo, HeardOf, NM.CallIds, NM.ReplyIds;
    var log := StrayLog(compute);
    TwoAnswers(s.answers[0], s.answers[1], s.requests);
    StrayLists(compute, F);
    assert Hears(log[2], s.answers[0]) && Hears(log[4], s.answers[1]);
  }

  lemma StrayFits(compute: (ChanKey, Bytes) -> Bytes, s: State)
    requires s.answers == [Answer(1, CantDo), Answer(0, First(compute))]
    requires s.requests == map[0 := Q0, 1 := QG, 2 := Q2]
    ensures Fits(StrayLog(compute), s, Strayed(compute), 10)
  {
    hide Strayed, StrayLog, First, AllHeard, NM.Causal, NM.CallIds, NM.ReplyIds, AnswersTo, RequestIds, HeardOf;
    StrayHeard(compute, s);
    forall h ensures RequestIds(Strayed(compute), 10, h) <= NM.CallIds(StrayLog(compute), h) {
      StrayIds(compute, h);
      StrayLists(compute, h);
    }
    StrayCausal(compute);
  }

  /**
   An ordered run and a fitting log in which answers on `f` come in request order, and yet a call gets the
   result of an earlier one: the error answer to `g` had failed that earlier call.
   */
  lemma StrayResult(compute: (ChanKey, Bytes) -> Bytes) returns (ss: seq<State>, es: seq<Event>)
    ensures OrderedRun(ss, es, compute) && Fits(StrayLog(compute), Last(ss), es, 10)
    ensures NM.ReplyIds(StrayLog(compute), F) == [0] && RequestIds(es, 10, F) == [0, 2]
    ensures !NM.AllOwn(StrayLog(compute), F)
    ensures NC.Get(NM.Play(StrayLog(compute)).gone, F) ==
            [NC.Rejected(NC.Call(0, true)), NC.Settled(NC.Call(2, true), Packet(First(compute)))]
  {
    hide OrderedRun, Packet, Strayed, Verdict, NM.Causal, NM.CallIds, NM.ReplyIds, NM.Play, NM.Given;
    ss, es := FirstReturns(compute);
    StrayFits(compute, Last(ss));
    hide Fits, RequestIds, NM.AllOwn;
    StrayIds(compute, F);
    StrayLists(compute, F);
    StrayCalls(compute);
  }
}
