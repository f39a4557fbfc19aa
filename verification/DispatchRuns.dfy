/** What holds in every state of every run of the dispatch protocol. */
module DispatchRuns {
  import opened Dispatch
  import opened DispatchInv

  predicate Step(s: State, e: Event, s': State) { Enabled(s, e) && s' == Apply(s, e) }

  /** A run: any interleaving of enabled events from the empty broker. */
  ghost predicate IsRun(ss: seq<State>, es: seq<Event>)
  {
    && |ss| == |es| + 1 && ss[0] == START
    && forall i {:trigger es[i]} :: 0 <= i < |es| ==> Step(ss[i], es[i], ss[i + 1])
  }

  lemma RunStep(ss: seq<State>, es: seq<Event>, i: nat)
    requires IsRun(ss, es) && i < |es|
    ensures |ss| == |es| + 1 && Step(ss[i], es[i], ss[i + 1])
  {
    hide Step;
  }

  lemma RunLength(ss: seq<State>, es: seq<Event>)
    requires IsRun(ss, es)
    ensures |ss| == |es| + 1
  {
    hide Step;
  }

  lemma {:induction false} RunInv(ss: seq<State>, es: seq<Event>, i: nat)
    requires IsRun(ss, es) && i < |ss|
    ensures Inv(ss[i])
  {
    if i == 0 {
    } else {
      RunInv(ss, es, i - 1);
      hide Inv, Apply, Enabled;
      InvKept(ss[i - 1], es[i - 1]);
    }
  }

  /** The containers a frame is found in; none once it is finished. */
  ghost function Found(s: State, id: Id): set<Place>
  {
    (if id in s.pool then {InPool} else {})
    + (if id in s.tasks && BeforePush(s.tasks[id]) then {InDispatch} else {})
    + (set k | k in s.chans && id in s.chans[k] :: InChannel(k))
    + (set rid | rid in s.inbound && Carries(s.inbound[rid], id) :: InReturn(rid))
  }

  /** What each container says of a frame. */
  lemma FoundIn(s: State, id: Id, p: Place)
    requires Placed(s) && p != Finished
    ensures p in Found(s, id) <==> Is(s.place, id, p)
  {
    match p
    case InChannel(k) => assert id in Get(s.chans, k) <==> Is(s.place, id, p);
    case _ =>
  }

  lemma FoundIsPlace(s: State, id: Id)
    requires Inv(s)
    ensures Found(s, id) == if id in s.place && s.place[id] != Finished then {s.place[id]} else {}
  {
    assert Finished !in Found(s, id);
    hide Found, Placed, JobsMatch, Answered;
    forall p ensures p in Found(s, id) <==> Is(s.place, id, p) && p != Finished {
      if p != Finished { FoundIn(s, id, p); }
    }
  }

  /** In every reachable state a frame is in at most one container, and there only once. */
  lemma OnePlace(ss: seq<State>, es: seq<Event>, i: nat, id: Id)
    requires IsRun(ss, es) && i < |ss|
    ensures |Found(ss[i], id)| <= 1
    ensures Distinct(ss[i].pool) && forall k :: k in ss[i].chans ==> Distinct(ss[i].chans[k])
  {
    RunInv(ss, es, i);
    FoundIsPlace(ss[i], id);
    forall k | k in ss[i].chans ensures Distinct(ss[i].chans[k]) { assert Distinct(Get(ss[i].chans, k)); }
  }

  /** The frame an event moves, if it moves one. */
  function Mover(s: State, e: Event): Id
    requires Enabled(s, e)
  {
    match e
    case PopHead(rid) => Get(s.chans, KeyOfResult(s.inbound[rid].result))[0]
    case Reject(rid) => s.inbound[rid].at.job
    case Reply(rid, _) => s.inbound[rid].at.job
    case Complete(rid) => s.inbound[rid].at.job
    case Arrive(_, _) => 0
    case PopTimeout(_) => 0
    case _ => e.id
  }

  lemma MovesFront(s: State, e: Event)
    requires Enabled(s, e) && Front(e)
    ensures Off(s.place, Apply(s, e).place, Mover(s, e))
  {
    hide Enabled, Add, KeyOf, Completes, Say, Get, KeyOfResult;
  }

  lemma MovesWork(s: State, e: Event)
    requires Enabled(s, e) && Working(e)
    ensures Off(s.place, Apply(s, e).place, Mover(s, e))
  {
    hide Enabled, Add, KeyOf, Completes, Say, Get, KeyOfResult;
  }

  lemma MovesReturn(s: State, e: Event)
    requires Enabled(s, e) && Returning(e)
    ensures Off(s.place, Apply(s, e).place, Mover(s, e))
  {
    hide Enabled, Add, KeyOf, Completes, Say;
  }

  lemma MovesOne(s: State, e: Event)
    requires Enabled(s, e)
    ensures Off(s.place, Apply(s, e).place, Mover(s, e))
  {
    hide Enabled, Apply, Mover, Off;
    if Front(e) { MovesFront(s, e); } else if Working(e) { MovesWork(s, e); } else { MovesReturn(s, e); }
  }

  /** A finished frame is not the one an event moves, except by an event that ends it. */
  lemma NotMoved(s: State, e: Event, id: Id)
    requires Placed(s) && Enabled(s, e) && Is(s.place, id, Finished)
    requires e.Take? || e.Push? || e.PopHead? || e.Accept?
    ensures Mover(s, e) != id
  {
    if e.Take? { InPoolHead(s); }
    else if e.Push? { LeaveDispatch(s, e.id, Finished); }
    else if e.PopHead? { InChannelHead(s, KeyOfResult(s.inbound[e.rid].result)); }
    else { FreshPlace(s, e.id); }
    hide Placed, Get, KeyOf, Completes;
  }

  /** Every other event that moves a frame finishes it. */
  lemma MovedFinishes(s: State, e: Event, id: Id)
    requires Enabled(s, e) && Is(s.place, id, Finished) && !e.Take? && !e.Push? && !e.PopHead? && !e.Accept?
    ensures Is(Apply(s, e).place, id, Finished)
  {
    hide Enabled, Get, Add, Say, KeyOf, KeyOfResult, Completes;
  }

  lemma StayFinished(s: State, e: Event, id: Id)
    requires Placed(s) && Enabled(s, e) && Is(s.place, id, Finished)
    ensures Is(Apply(s, e).place, id, Finished)
  {
    hide Placed, Enabled, Apply, Mover;
    if e.Take? || e.Push? || e.PopHead? || e.Accept? {
      NotMoved(s, e, id);
      MovesOne(s, e);
    } else {
      MovedFinishes(s, e, id);
    }
  }

  /**
   The events that end a frame's way: no worker, no room in the channel, or the result holding it is rejected
   or replied.
   */
  predicate Ends(s: State, e: Event, id: Id)
  {
    match e
    case NoWorker(x, _) => x == id
    case PushTimeout(x, _) => x == id
    case Reject(rid) => rid in s.inbound && s.inbound[rid].at == Holding(id)
    case Reply(rid, _) => rid in s.inbound && s.inbound[rid].at == Replying(id)
    case _ => false
  }

  lemma EndsPlace(s: State, e: Event, id: Id)
    requires Placed(s) && Enabled(s, e) && id in s.place && s.place[id] != Finished
             && Is(Apply(s, e).place, id, Finished)
    ensures Ends(s, e, id)
  {
    hide Placed, Enabled, Apply, Mover, Ends;
    MovesOne(s, e);
    if Returning(e) { EndsLate(s, e, id); } else { EndsEarly(s, e, id); }
  }

  lemma EndsEarly(s: State, e: Event, id: Id)
    requires Placed(s) && Enabled(s, e) && (Front(e) || Working(e)) && Mover(s, e) == id
    requires id in s.place && s.place[id] != Finished && Is(Apply(s, e).place, id, Finished)
    ensures Ends(s, e, id)
  {
    hide Placed, Enabled, Apply;
    if !e.NoWorker? && !e.PushTimeout? { EndsNot(s, e); }
  }

  /** No other event before the result finishes a frame it finds. */
  lemma EndsNot(s: State, e: Event)
    requires Placed(s) && Enabled(s, e) && (Front(e) || Working(e)) && !e.NoWorker? && !e.PushTimeout?
    ensures var id := Mover(s, e); id in s.place && Is(Apply(s, e).place, id, Finished) ==> s.place[id] == Finished
  {
    hide Placed, Get, Add, Say, KeyOf, Enabled, Empty;
    if e.Refuse? { RefuseNew(s, e); }
  }

  lemma RefuseNew(s: State, e: Event)
    requires Placed(s) && Enabled(s, e) && e.Refuse?
    ensures e.id !in s.place
  {
    FreshPlace(s, e.id);
  }

  lemma EndsLate(s: State, e: Event, id: Id)
    requires Enabled(s, e) && Returning(e) && Mover(s, e) == id
    requires id in s.place && s.place[id] != Finished && Is(Apply(s, e).place, id, Finished)
    ensures Ends(s, e, id)
  {
    hide Get, Add, Say, KeyOf, KeyOfResult, Completes;
  }

  /** A frame leaves its last container only by an event that ends its way. */
  lemma LeavesByEnding(ss: seq<State>, es: seq<Event>, i: nat, id: Id)
    requires IsRun(ss, es) && i < |es| && |ss| == |es| + 1 && Found(ss[i], id) != {} && Found(ss[i + 1], id) == {}
    ensures Ends(ss[i], es[i], id)
  {
    hide IsRun, Apply, Enabled, Found, Placed, JobsMatch, Answered;
    RunInv(ss, es, i);
    RunInv(ss, es, i + 1);
    RunStep(ss, es, i);
    FoundIsPlace(ss[i], id);
    FoundIsPlace(ss[i + 1], id);
    PlaceKnown(ss[i], id);
    PlaceKnown(ss[i + 1], id);
    RequestsGrow(ss[i], es[i], id);
    EndsPlace(ss[i], es[i], id);
  }

  lemma RequestsGrow(s: State, e: Event, id: Id)
    requires Enabled(s, e)
    ensures id in s.requests ==> id in Apply(s, e).requests
  {
    hide Enabled, Get, Add, Say, KeyOf, KeyOfResult, Completes;
  }

  /** An accepted frame starts in the pool, and in no other container. */
  lemma AcceptEnters(ss: seq<State>, es: seq<Event>, i: nat)
    requires IsRun(ss, es) && i < |es| && |ss| == |es| + 1 && es[i].Accept?
    ensures Found(ss[i], es[i].id) == {} && Found(ss[i + 1], es[i].id) == {InPool}
  {
    hide IsRun, Found, Placed, JobsMatch, Answered;
    RunInv(ss, es, i);
    RunInv(ss, es, i + 1);
    RunStep(ss, es, i);
    FoundIsPlace(ss[i], es[i].id);
    FoundIsPlace(ss[i + 1], es[i].id);
    PlaceKnown(ss[i], es[i].id);
  }

  /** A finished frame is in no container ever after. */
  lemma {:induction false} FinishedForGood(ss: seq<State>, es: seq<Event>, i: nat, j: nat, id: Id)
    requires IsRun(ss, es) && i <= j < |ss| && id in ss[i].requests && Found(ss[i], id) == {}
    ensures id in ss[j].requests && Found(ss[j], id) == {}
    decreases j
  {
    hide IsRun, Apply, Enabled, Found, Placed, JobsMatch, Answered;
    RunInv(ss, es, j);
    FoundIsPlace(ss[j], id);
    if i < j {
      RunLength(ss, es);
      FinishedForGood(ss, es, i, j - 1, id);
      RunInv(ss, es, j - 1);
      FoundIsPlace(ss[j - 1], id);
      PlaceKnown(ss[j - 1], id);
      RunStep(ss, es, j - 1);
      StayFinished(ss[j - 1], es[j - 1], id);
      PlaceKnown(ss[j], id);
    } else {
      PlaceKnown(ss[j], id);
    }
  }

  lemma PlaceKnown(s: State, id: Id)
    requires Placed(s)
    ensures id in s.place <==> id in s.requests
  {
  }

  /**
   A client frame gets one answer at most; the answer comes last, and a RETURN_DATA echoes its own handle and
   parameters.
   */
  lemma OneAnswer(ss: seq<State>, es: seq<Event>, i: nat, a: nat, b: nat)
    requires IsRun(ss, es) && i < |ss| && a < |ss[i].answers| && b < |ss[i].answers|
    ensures ss[i].answers[a].req == ss[i].answers[b].req ==> a == b
    ensures var ans := ss[i].answers[a];
            && ans.req in ss[i].requests && Found(ss[i], ans.req) == {}
            && (ans.frame.ReturnData? ==>
                  && ans.frame.handle == ss[i].requests[ans.req].handle
                  && ans.frame.params == ss[i].requests[ans.req].params)
  {
    RunInv(ss, es, i);
    FoundIsPlace(ss[i], ss[i].answers[a].req);
    assert GoodAnswer(ss[i].requests, ss[i].jobs, ss[i].place, ss[i].answers[a]);
  }

  predicate HasAnswer(s: State, id: Id) { exists n :: 0 <= n < |s.answers| && s.answers[n].req == id }

  predicate AddsOne(was: seq<Answer>, now: seq<Answer>, id: Id)
  {
    was <= now && |now| <= |was| + 1 && (|now| > |was| ==> now[|was|].req == id)
  }

  /** An event answers nobody, or the frame it finishes. */
  lemma AnswersOne(s: State, e: Event)
    requires Enabled(s, e)
    ensures AddsOne(s.answers, Apply(s, e).answers, Mover(s, e))
  {
    hide Enabled, Apply, Mover;
    if Front(e) { AnswersFront(s, e); } else { AnswersElse(s, e); }
  }

  lemma AnswersFront(s: State, e: Event)
    requires Enabled(s, e) && Front(e)
    ensures AddsOne(s.answers, Apply(s, e).answers, Mover(s, e))
  {
    hide Enabled, Get, Add, KeyOf, KeyOfResult, Completes;
  }

  lemma AnswersElse(s: State, e: Event)
    requires Enabled(s, e) && !Front(e)
    ensures AddsOne(s.answers, Apply(s, e).answers, Mover(s, e))
  {
    hide Enabled, Get, Add, KeyOf, KeyOfResult, Completes;
  }

  predicate Answering(e: Event) { e.Refuse? || e.NoWorker? || e.PushTimeout? || e.Reply? }

  lemma SilentEvents(s: State, e: Event)
    requires Enabled(s, e) && !Answering(e)
    ensures Apply(s, e).answers == s.answers
  {
    hide Enabled, Get, Add, KeyOf, KeyOfResult, Completes;
  }

  /** What is answered was not finished. */
  lemma AnswersUnfinished(s: State, e: Event, id: Id)
    requires Placed(s) && Enabled(s, e) && Answering(e) && Is(s.place, id, Finished)
    ensures Mover(s, e) != id
  {
    if e.Refuse? { FreshPlace(s, e.id); }
    else if e.Reply? { LeaveReturn(s, e.rid, s.inbound[e.rid].at.job); }
    else { LeaveDispatch(s, e.id, Finished); }
    hide Placed, Get, KeyOf, Completes;
  }

  lemma StayUnanswered(s: State, e: Event, id: Id)
    requires Placed(s) && Enabled(s, e) && Is(s.place, id, Finished) && !HasAnswer(s, id)
    ensures !HasAnswer(Apply(s, e), id)
  {
    hide Placed, Enabled, Apply, Mover;
    if Answering(e) { AnswersUnfinished(s, e, id); AnswersOne(s, e); } else { SilentEvents(s, e); }
  }

  /** A frame that is finished without an answer is never answered later. */
  lemma {:induction false} NeverAnswered(ss: seq<State>, es: seq<Event>, i: nat, j: nat, id: Id)
    requires IsRun(ss, es) && i <= j < |ss| && id in ss[i].requests && Found(ss[i], id) == {} && !HasAnswer(ss[i], id)
    ensures !HasAnswer(ss[j], id)
    decreases j
  {
    hide IsRun, Apply, Enabled, Found, Placed, JobsMatch, Answered, HasAnswer;
    if i < j {
      RunLength(ss, es);
      NeverAnswered(ss, es, i, j - 1, id);
      FinishedForGood(ss, es, i, j - 1, id);
      RunInv(ss, es, j - 1);
      FoundIsPlace(ss[j - 1], id);
      PlaceKnown(ss[j - 1], id);
      RunStep(ss, es, j - 1);
      StayUnanswered(ss[j - 1], es[j - 1], id);
    }
  }

  /** Every job queued for a worker and function was made for that worker and that function. */
  lemma ChannelJobs(ss: seq<State>, es: seq<Event>, i: nat, k: ChanKey, n: nat)
    requires IsRun(ss, es) && i < |ss| && n < |Get(ss[i].chans, k)|
    ensures var id := Get(ss[i].chans, k)[n];
            && id in ss[i].jobs && id in ss[i].requests
            && ss[i].jobs[id].worker == k.worker && ss[i].jobs[id].func == k.func == ss[i].requests[id].handle
  {
    RunInv(ss, es, i);
    var id := Get(ss[i].chans, k)[n];
    assert id in Get(ss[i].chans, k);
    assert Is(ss[i].place, id, InChannel(k));
    assert OwnJob(ss[i].requests[id], ss[i].jobs[id]);
  }

  predicate NextStatus(a: Status, b: Status)
  {
    a == b || (a == INIT && b == DOING) || (a == DOING && b == DONE)
  }

  predicate ChangesJob(e: Event) { e.Pick? || e.Begin? || e.Store? || e.Complete? }

  lemma SameJobs(s: State, e: Event)
    requires Enabled(s, e) && !ChangesJob(e)
    ensures Apply(s, e).jobs == s.jobs
  {
    hide Enabled, Get, Add, KeyOf, KeyOfResult, Completes, Say;
  }

  lemma StatusChange(s: State, e: Event, id: Id)
    requires TaskJobs(s.tasks, s.jobs, s.place) && Enabled(s, e) && ChangesJob(e) && id in s.jobs
    ensures var s' := Apply(s, e); id in s'.jobs && NextStatus(s.jobs[id].status, s'.jobs[id].status)
  {
    if e.Pick? { NotYetMade(s, e); }
    hide TaskJobs, Get, Add, KeyOf, KeyOfResult, Empty;
  }

  lemma NotYetMade(s: State, e: Event)
    requires TaskJobs(s.tasks, s.jobs, s.place) && Enabled(s, e) && e.Pick?
    ensures e.id !in s.jobs
  {
  }

  lemma StatusStep(s: State, e: Event, id: Id)
    requires Inv(s) && Enabled(s, e) && id in s.jobs
    ensures var s' := Apply(s, e); id in s'.jobs && NextStatus(s.jobs[id].status, s'.jobs[id].status)
  {
    hide Enabled, Apply, Placed, Answered, OwnJobs, PlaceJobs, Replies, TaskJobs;
    if ChangesJob(e) { StatusChange(s, e, id); } else { SameJobs(s, e); }
  }

  function Rank(t: Status): nat { match t case INIT => 0 case DOING => 1 case DONE => 2 }

  /** Over any stretch of any run a job's status moves only forward, one level per step. */
  lemma {:induction false} StatusForward(ss: seq<State>, es: seq<Event>, i: nat, j: nat, id: Id)
    requires IsRun(ss, es) && i <= j < |ss| && id in ss[i].jobs
    ensures id in ss[j].jobs
    ensures var before, after := Rank(ss[i].jobs[id].status), Rank(ss[j].jobs[id].status);
            before <= after <= before + (j - i)
    decreases j
  {
    hide IsRun, Inv, Apply, Enabled;
    if i < j {
      RunLength(ss, es);
      StatusForward(ss, es, i, j - 1, id);
      RunInv(ss, es, j - 1);
      RunStep(ss, es, j - 1);
      StatusStep(ss[j - 1], es[j - 1], id);
    }
  }

  /** `doWork` never finds its job already started: the push comes first and nobody else starts it. */
  lemma NeverSkips(ss: seq<State>, es: seq<Event>, i: nat)
    requires IsRun(ss, es) && i < |es|
    ensures !es[i].Skip?
  {
    RunInv(ss, es, i);
    hide Placed, Answered, OwnJobs, PlaceJobs, Replies;
  }
}
