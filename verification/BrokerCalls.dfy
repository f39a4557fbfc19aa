/**
 A Node client's calls through the broker: which result each call is settled with, in every run of
 the dispatch protocol and every log of the client.
 */
module BrokerCalls {
  import opened Bytes
  import opened Dispatch
  import opened DispatchInv
  import opened DispatchRuns
  import opened DispatchMatching
  import Wire
  import NodeRelay
  import NC = NodeClient
  import NM = NodeMatching

  /** The requests of client `c` for `h`, in the order the server read them. */
  function RequestIds(es: seq<Event>, c: nat, h: Bytes): seq<Id>
  {
    if es == [] then [] else
      var e := es[|es| - 1];
      RequestIds(es[..|es| - 1], c, h)
      + if (e.Accept? || e.Refuse?) && e.req.client == c && e.req.handle == h then [e.id] else []
  }

  predicate IsTo(requests: map<Id, Request>, a: Answer, c: nat)
  {
    a.req in requests && requests[a.req].client == c
  }

  /** The answers written to client `c`, results and errors, in order. */
  function AnswersTo(answers: seq<Answer>, requests: map<Id, Request>, c: nat): seq<Answer>
  {
    if answers == [] then [] else
      var a := answers[|answers| - 1];
      AnswersTo(answers[..|answers| - 1], requests, c) + if IsTo(requests, a, c) then [a] else []
  }

  function Packet(f: Frame): Bytes
    requires f.ReturnData?
  {
    NodeRelay.ReturnFrame(Wire.ServerReturn(f.handle, f.params, f.ret))
  }

  predicate IsAnswer(e: NM.Entry) { e.Replied? || e.Erred? }

  /** What the client heard, in order. */
  function HeardOf(log: NM.Log): seq<NM.Entry>
  {
    if log == [] then [] else
      var e := log[|log| - 1];
      HeardOf(log[..|log| - 1]) + if IsAnswer(e) then [e] else []
  }

  lemma HeardPush(t: NM.Log, e: NM.Entry)
    ensures HeardOf(t + [e]) == HeardOf(t) + if IsAnswer(e) then [e] else []
  {
    assert (t + [e])[..|t|] == t;
  }

  predicate Hears(e: NM.Entry, a: Answer)
  {
    match e
    case Replied(h, id, packet) =>
      id == a.req && a.frame.ReturnData? && h == a.frame.handle && packet == Packet(a.frame)
    case Erred(id) => id == a.req && !a.frame.ReturnData?
    case _ => false
  }

  predicate AllHeard(heard: seq<NM.Entry>, written: seq<Answer>)
  {
    |heard| <= |written| && forall n :: 0 <= n < |heard| ==> Hears(heard[n], written[n])
  }

  /**
   A log of client `c` that fits the broker's state: on every handle the server has read a first part of
   the calls, and the client has heard a first part of the answers written to it, in order.
   */
  ghost predicate Fits(log: NM.Log, s: State, es: seq<Event>, c: nat)
  {
    && NM.Causal(log) && (forall h :: RequestIds(es, c, h) <= NM.CallIds(log, h))
    && AllHeard(HeardOf(log), AnswersTo(s.answers, s.requests, c))
  }

  // ---------------------------------------------------------------- requests and answers of a run

  lemma {:induction false} AnswersAre(answers: seq<Answer>, requests: map<Id, Request>, c: nat, n: nat)
    requires n < |AnswersTo(answers, requests, c)|
    ensures AnswersTo(answers, requests, c)[n] in answers && IsTo(requests, AnswersTo(answers, requests, c)[n], c)
  {
    var t := answers[..|answers| - 1];
    if n < |AnswersTo(t, requests, c)| { AnswersAre(t, requests, c, n); }
  }

  lemma {:induction false} AnswersDistinct(answers: seq<Answer>, requests: map<Id, Request>, c: nat, a: nat, b: nat)
    requires forall i, j :: 0 <= i < j < |answers| ==> answers[i].req != answers[j].req
    requires a < b < |AnswersTo(answers, requests, c)|
    ensures AnswersTo(answers, requests, c)[a].req != AnswersTo(answers, requests, c)[b].req
  {
    var k := |answers| - 1;
    var t := answers[..k];
    var rs := AnswersTo(t, requests, c);
    if b < |rs| {
      AnswersDistinct(t, requests, c, a, b);
    } else {
      AnswersAre(t, requests, c, a);
      var i :| 0 <= i < |t| && t[i] == rs[a];
      assert answers[i] == t[i];
    }
  }

  /** Every request of the state was read by some event. */
  lemma {:induction false} RequestsRead(ss: seq<State>, es: seq<Event>, i: nat, id: Id)
    requires IsRun(ss, es) && i < |ss| && id in ss[i].requests
    ensures id in RequestIds(es[..i], ss[i].requests[id].client, ss[i].requests[id].handle)
  {
    hide IsRun, Enabled, Apply;
    if i == 0 {
      StartsEmpty(ss, es);
    } else {
      RunLength(ss, es);
      RunStep(ss, es, i - 1);
      var s, e := ss[i - 1], es[i - 1];
      assert es[..i][..i - 1] == es[..i - 1];
      NewRequest(s, e, id);
      if id in s.requests {
        RequestsRead(ss, es, i - 1, id);
      }
    }
  }

  lemma StartsEmpty(ss: seq<State>, es: seq<Event>)
    requires IsRun(ss, es)
    ensures |ss| > 0 && ss[0].requests == map[]
  {
  }

  lemma NewRequest(s: State, e: Event, id: Id)
    requires Enabled(s, e) && id in Apply(s, e).requests
    ensures if (e.Accept? || e.Refuse?) && e.id == id then Apply(s, e).requests[id] == e.req
            else id in s.requests && Apply(s, e).requests[id] == s.requests[id]
  {
    hide Get, Add, Say, KeyOf, KeyOfResult, Completes;
  }

  /** The place of an answer among those heard. */
  lemma {:induction false} HeardAt(log: NM.Log, j: nat)
    requires j < |log| && IsAnswer(log[j])
    ensures |HeardOf(log[..j])| < |HeardOf(log)| && HeardOf(log)[|HeardOf(log[..j])|] == log[j]
  {
    var n := |log| - 1;
    if j < n {
      HeardAt(log[..n], j);
      assert log[..n][..j] == log[..j];
    }
  }

  /** The answer that a log entry hears. */
  lemma HeardAnswer(log: NM.Log, s: State, es: seq<Event>, c: nat, j: nat)
    requires Fits(log, s, es, c) && j < |log| && IsAnswer(log[j])
    ensures var n := |HeardOf(log[..j])|;
            n < |AnswersTo(s.answers, s.requests, c)| && Hears(log[j], AnswersTo(s.answers, s.requests, c)[n])
  {
    HeardAt(log, j);
    hide HeardOf, AnswersTo, NM.Causal, RequestIds, NM.CallIds, Hears;
  }

  lemma HeardOnce(log: NM.Log, s: State, es: seq<Event>, c: nat, h: Bytes)
    requires Fits(log, s, es, c) && Inv(s)
    ensures NM.Once(log, h)
  {
    hide Fits, Inv;
    forall i, j | 0 <= i < j < |log| && NM.ReplyOn(log[i], h) && NM.ReplyOn(log[j], h)
      ensures log[i].id != log[j].id
    {
      HeardApart(log, s, es, c, i, j);
    }
  }

  lemma HeardApart(log: NM.Log, s: State, es: seq<Event>, c: nat, i: nat, j: nat)
    requires Fits(log, s, es, c) && Inv(s) && i < j < |log| && log[i].Replied? && log[j].Replied?
    ensures log[i].id != log[j].id
  {
    hide Fits, Placed, JobsMatch, HeardOf, AnswersTo, Packet, GoodAnswer;
    HeardAnswer(log, s, es, c, i);
    HeardAnswer(log, s, es, c, j);
    HeardAt(log[..j], i);
    assert log[..j][..i] == log[..i];
    AnswersDistinct(s.answers, s.requests, c, |HeardOf(log[..i])|, |HeardOf(log[..j])|);
  }

  /** A reply that was heard is a RETURN_DATA answer of the broker to a request of this client on that handle. */
  lemma HeardWritten(log: NM.Log, s: State, es: seq<Event>, c: nat, j: nat)
    requires Fits(log, s, es, c) && Inv(s) && j < |log| && log[j].Replied?
    ensures exists a :: a in s.answers && Hears(log[j], a) && IsTo(s.requests, a, c)
    ensures var id := log[j].id; id in s.requests && s.requests[id].client == c && s.requests[id].handle == log[j].h
  {
    HeardAnswer(log, s, es, c, j);
    var n := |HeardOf(log[..j])|;
    AnswersAre(s.answers, s.requests, c, n);
    var a := AnswersTo(s.answers, s.requests, c)[n];
    hide Fits, Placed, JobsMatch, HeardOf, AnswersTo, Packet;
    var m :| 0 <= m < |s.answers| && s.answers[m] == a;
    assert GoodAnswer(s.requests, s.jobs, s.place, s.answers[m]);
  }

  lemma RequestIdsPush(es: seq<Event>, e: Event, c: nat, h: Bytes)
    ensures RequestIds(es + [e], c, h)
            == RequestIds(es, c, h)
               + if (e.Accept? || e.Refuse?) && e.req.client == c && e.req.handle == h then [e.id] else []
  {
    assert (es + [e])[..|es|] == es;
  }

  /** Hearing a RETURN_DATA packet is settling the oldest call of its handle with it. */
  lemma HeardIsSettled(calls: NC.Calls, f: Frame)
    requires f.ReturnData? && f.handle != []
             && |Wire.ServerReturnBytes(Wire.ServerReturn(f.handle, f.params, f.ret))| < TWO32
    ensures NC.ActAll(calls, [Packet(f)]) == NC.Settle(calls, f.handle, Packet(f))
  {
    var s := Wire.ServerReturn(f.handle, f.params, f.ret);
    NodeRelay.ResultIsReply(s);
    hide NodeRelay.ReturnFrame, Wire.ServerReturnBytes, NC.Classify;
    var none: seq<Bytes> := [];
    assert [Packet(f)][1..] == none;
    assert NC.ActAll(NC.Settle(calls, f.handle, Packet(f)), none) == NC.Settle(calls, f.handle, Packet(f));
  }

  // ---------------------------------------------------------------- main results

  /**
   In every run of the broker and for every log of a client that fits it, error answers included: each
   settled call on a handle has the answer to its own request if and only if the answers to the calls made
   since the last failure come in the order of those calls and no result of a call that an error answer had
   failed comes while a later call on that handle is unanswered.
   */
  lemma OwnIff(ss: seq<State>, es: seq<Event>, i: nat, log: NM.Log, c: nat, h: Bytes)
    requires IsRun(ss, es) && i < |ss| && Fits(log, ss[i], es[..i], c)
    ensures NM.AllOwn(log, h) <==> NM.InOrder(log, h) && NM.NoStray(log, h)
  {
    RunInv(ss, es, i);
    hide IsRun, Inv;
    HeardOnce(log, ss[i], es[..i], c, h);
    NM.OwnIff(log, h);
  }

  lemma PrefixEither(a: seq<nat>, b: seq<nat>, c: seq<nat>)
    requires b <= c && |a| <= |b|
    ensures a <= c <==> a <= b
  {
  }

  /** So a client that heard no error has its own answers exactly when they come in request order. */
  lemma OwnIffRequestOrder(ss: seq<State>, es: seq<Event>, i: nat, log: NM.Log, c: nat, h: Bytes)
    requires IsRun(ss, es) && i < |ss| && Fits(log, ss[i], es[..i], c) && NM.Calm(log)
    ensures NM.AllOwn(log, h) <==> NM.ReplyIds(log, h) <= RequestIds(es[..i], c, h)
  {
    RunInv(ss, es, i);
    HeardOnce(log, ss[i], es[..i], c, h);
    NM.OwnIffCallOrder(log, h);
    NM.RepliesDistinct(log, h);
    var ids, reqs := NM.ReplyIds(log, h), RequestIds(es[..i], c, h);
    hide NM.AllOwn, NM.Distinct, NM.Once, NM.ReplyIds, Inv, NM.Calm;
    forall x | x in ids ensures x in reqs {
      NM.ReplyIn(log, h, x);
      var j :| 0 <= j < |log| && NM.ReplyOn(log[j], h) && log[j].id == x;
      HeardWritten(log, ss[i], es[..i], c, j);
      RequestsRead(ss, es, i, x);
    }
    NM.DistinctWithin(ids, reqs);
    PrefixEither(ids, reqs, NM.CallIds(log, h));
  }

  /** What a call is owed: the answer computed from its own parameters by the worker its job was given to. */
  ghost function Owed(s: State, id: Id, compute: (ChanKey, Bytes) -> Bytes): Bytes
    requires id in s.requests && id in s.jobs
  {
    var q := s.requests[id];
    Packet(ReturnData(q.handle, q.params, compute(ChanKey(s.jobs[id].worker, q.handle), q.params)))
  }

  ghost predicate GetsOwed(s: State, g: NC.Gone, compute: (ChanKey, Bytes) -> Bytes)
  {
    g.Settled? ==> g.call.id in s.requests && g.call.id in s.jobs && g.packet == Owed(s, g.call.id, compute)
  }

  /** A reply that was heard in an ordered run is what its own request is owed. */
  lemma HeardIsOwed(ss: seq<State>, es: seq<Event>, i: nat, log: NM.Log, c: nat, j: nat,
                    compute: (ChanKey, Bytes) -> Bytes)
    requires OrderedRun(ss, es, compute) && i < |ss| && Fits(log, ss[i], es[..i], c) && j < |log| && log[j].Replied?
    ensures var s, id := ss[i], log[j].id;
            id in s.requests && id in s.jobs && log[j].packet == Owed(s, id, compute)
  {
    var s := ss[i];
    assert IsRun(ss, es);
    hide *;
    assert log[j].Replied?;
    RunInv(ss, es, i);
    HeardWritten(log, s, es[..i], c, j);
    var a :| a in s.answers && Hears(log[j], a) && IsTo(s.requests, a, c);
    var m :| 0 <= m < |s.answers| && s.answers[m] == a;
    OrderedReply(ss, es, i, m, compute);
    AnswerIsGood(s, m);
    GoodIsOwed(s, log[j], a, compute);
  }

  lemma GoodIsOwed(s: State, e: NM.Entry, a: Answer, compute: (ChanKey, Bytes) -> Bytes)
    requires e.Replied? && Hears(e, a) && GoodAnswer(s.requests, s.jobs, s.place, a)
    requires a.req in s.requests && a.req in s.jobs
    requires var q := s.requests[a.req]; a.frame.ret == compute(ChanKey(s.jobs[a.req].worker, q.handle), q.params)
    ensures e.id == a.req && e.packet == Owed(s, a.req, compute)
  {
    hide Packet;
  }

  lemma AnswerIsGood(s: State, m: nat)
    requires Inv(s) && m < |s.answers|
    ensures GoodAnswer(s.requests, s.jobs, s.place, s.answers[m])
  {
    hide Placed, JobsMatch, GoodAnswer;
  }

  /**
   In an ordered run whose answers reach the client in order and without strays, every call the client has
   settled on the handle has exactly what it is owed, whatever error answers came in between.
   */
  lemma OrderedCallsGetOwnRet(ss: seq<State>, es: seq<Event>, i: nat, log: NM.Log, c: nat, h: Bytes, n: nat,
                              compute: (ChanKey, Bytes) -> Bytes)
    requires OrderedRun(ss, es, compute) && i < |ss| && Fits(log, ss[i], es[..i], c)
    requires NM.InOrder(log, h) && NM.NoStray(log, h) && n < |NC.Get(NM.Play(log).gone, h)|
    ensures GetsOwed(ss[i], NC.Get(NM.Play(log).gone, h)[n], compute)
  {
    OwnIff(ss, es, i, log, c, h);
    var g := NC.Get(NM.Play(log).gone, h)[n];
    if g.Settled? {
      NM.SettledByReply(log, h, n);
      hide NM.Play, OrderedRun, Fits, NM.Given;
      var id :| NM.Pair(g.call, id, g.packet) in NM.Given(log, h) && NM.Replied(h, id, g.packet) in log;
      var j :| 0 <= j < |log| && log[j] == NM.Replied(h, id, g.packet);
      HeardIsOwed(ss, es, i, log, c, j, compute);
    }
  }
}
