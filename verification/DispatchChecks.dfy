/** The tests of `returnData`, in terms of the client's own request: what passes them and what is dropped. */
module DispatchChecks {
  import opened Bytes
  import opened Dispatch
  import opened DispatchInv
  import opened DispatchRuns
  import opened DispatchMatching
  import opened DispatchLosses
  import opened DispatchSteps
  import opened DispatchRaces

  /** A response is stored only in a job that has been started. */
  ghost predicate StoredIsStarted(jobs: map<Id, Job>)
  {
    forall id :: id in jobs && jobs[id].response != NoResponse ==> jobs[id].status != INIT
  }

  lemma StoredStep(s: State, e: Event)
    requires LossInv(s) && StoredIsStarted(s.jobs) && Enabled(s, e)
    ensures StoredIsStarted(Apply(s, e).jobs)
  {
    hide HeldOk, Undone, Get, KeyOf, KeyOfResult, Enabled, Apply;
    if !ChangesJob(e) { SameJobs(s, e); } else { StoredChange(s, e); }
  }

  lemma StoredChange(s: State, e: Event)
    requires LossInv(s) && StoredIsStarted(s.jobs) && Enabled(s, e) && ChangesJob(e)
    ensures StoredIsStarted(Apply(s, e).jobs)
  {
    hide HeldOk, Undone, Get, KeyOf, KeyOfResult;
  }

  lemma {:induction false} StoredRun(ss: seq<State>, es: seq<Event>, i: nat)
    requires IsRun(ss, es) && i < |ss|
    ensures StoredIsStarted(ss[i].jobs)
  {
    hide IsRun, LossInv, StoredIsStarted, Apply, Enabled;
    if i == 0 {
      StoredStart(ss, es);
    } else {
      RunLength(ss, es);
      StoredRun(ss, es, i - 1);
      LossRun(ss, es, i - 1);
      RunStep(ss, es, i - 1);
      StoredStep(ss[i - 1], es[i - 1]);
    }
  }

  lemma StoredStart(ss: seq<State>, es: seq<Event>)
    requires IsRun(ss, es)
    ensures ss != [] && StoredIsStarted(ss[0].jobs)
  {
    hide Step;
  }

  /** The job a result is checked against, and the client frame that job was made from. */
  lemma HeldOwn(s: State, rid: Rid)
    requires Inv(s) && LossInv(s) && Checking(s, rid)
    ensures var r, id := s.inbound[rid].result, s.inbound[rid].at.job;
            && id in s.requests && s.jobs[id].worker == r.worker && s.requests[id].handle == r.handle
            && s.jobs[id].status != DONE && OwnJob(s.requests[id], s.jobs[id])
  {
    hide Placed, TaskJobs, PlaceJobs, Replies, Answered, Undone, Started;
    assert HeldOne(s.inbound[rid], s.jobs);
  }

  /** Before the test: the event is enabled for the job that is held. */
  lemma TestedIs(s: State, e: Event)
    requires Enabled(s, e) && (e.Complete? || e.Reject?)
    ensures Checking(s, e.rid)
    ensures e.Complete? <==> Completes(s.jobs[s.inbound[e.rid].at.job], s.inbound[e.rid].result)
  {
    hide Completes;
  }

  /**
   In every run, whatever the worker sends: a result is tested against a job that was made for its worker from
   a client frame with its handle. The client is answered only if the frame's parameters have the length the
   result names and the response has been stored, and otherwise the result and the job are dropped.
   */
  lemma DroppedIff(ss: seq<State>, es: seq<Event>, i: nat)
    requires IsRun(ss, es) && i < |es| && (es[i].Complete? || es[i].Reject?)
    ensures Checking(ss[i], es[i].rid)
    ensures var s, rid := ss[i], es[i].rid;
            var r, id := s.inbound[rid].result, s.inbound[rid].at.job;
            && id in s.requests && s.requests[id].handle == r.handle && s.jobs[id].worker == r.worker
            && (es[i].Reject? <==> s.jobs[id].response == NoResponse || |s.requests[id].params| != r.paramsLen)
  {
    RunLength(ss, es);
    RunStep(ss, es, i);
    RunInv(ss, es, i);
    LossRun(ss, es, i);
    StoredRun(ss, es, i);
    TestedIs(ss[i], es[i]);
    HeldOwn(ss[i], es[i].rid);
    hide IsRun, Inv, LossInv, Enabled, Apply;
  }

  /** What a completed job holds: the frame's own handle and parameters, and the result's ret. */
  lemma CompletedWith(ss: seq<State>, es: seq<Event>, i: nat)
    requires IsRun(ss, es) && i < |es| && es[i].Complete?
    ensures |ss| == |es| + 1 && Checking(ss[i], es[i].rid)
    ensures var s, rid := ss[i], es[i].rid;
            var r, id := s.inbound[rid].result, s.inbound[rid].at.job;
            && id in s.requests && id in ss[i + 1].jobs && ss[i + 1].jobs[id].status == DONE
            && ss[i + 1].jobs[id].ret == s.jobs[id].ret + r.ret
            && ss[i + 1].jobs[id].response == Response(s.requests[id].handle, s.requests[id].params)
  {
    DroppedIff(ss, es, i);
    RunStep(ss, es, i);
    RunInv(ss, es, i);
    LossRun(ss, es, i);
    HeldOwn(ss[i], es[i].rid);
    hide IsRun, Inv, LossInv, Enabled;
  }

  // ---------------------------------------------------------------- a result of another length

  const Q2: Request := Request(11, F, [2, 3])

  /** Two clients have called `f` with parameters of different lengths, and both jobs are with the worker. */
  lemma BothLengthsSent() returns (ss: seq<State>, es: seq<Event>)
    ensures IsRun(ss, es)
    ensures var s := Last(ss);
            && Get(s.chans, K) == [0, 1] && s.inbound == map[] && s.answers == []
            && s.requests == map[0 := Q, 1 := Q2] && s.jobs.Keys == {0, 1}
            && s.jobs[0] == Answerable(Made(7, Q)) && s.jobs[1] == Answerable(Made(7, Q2))
  {
    hide IsRun;
    ss, es := Begun();
    ss, es := PushedOne(ss, es, 0, Q, 7);
    ss, es := PushedOne(ss, es, 1, Q2, 7);
    ss, es := SentOne(ss, es, 0);
    ss, es := SentOne(ss, es, 1);
  }

  /**
   The worker answers the second job first. Its result meets the first job, whose parameters are shorter: the
   result is dropped, and neither client is answered.
   */
  lemma OtherLengthDropped(ret: Bytes) returns (ss: seq<State>, es: seq<Event>)
    ensures IsRun(ss, es) && |es| > 0 && es[|es| - 1] == Reject(0) && Arrive(0, Result(7, F, 2, 1, ret)) in es
    ensures Last(ss).answers == [] && 0 in Last(ss).requests && Found(Last(ss), 0) == {}
  {
    hide IsRun, Leads, Found;
    var r := Result(7, F, 2, 1, ret);
    ss, es := BothLengthsSent();
    var es0 := es;
    ss, es := PoppedOne(ss, es, 0, r);
    assert es[|es0|] == Arrive(0, r);
    var s := Last(ss);
    RejectStep(s, 0);
    ss, es := Extend(ss, es, Reject(0), OnReject(s, 0));
    RunInvLast(ss, es);
    FoundIsPlace(Last(ss), 0);
  }

  lemma RunInvLast(ss: seq<State>, es: seq<Event>)
    requires IsRun(ss, es)
    ensures Inv(Last(ss))
  {
    RunLength(ss, es);
    RunInv(ss, es, |ss| - 1);
  }
}
