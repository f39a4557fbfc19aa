/**
 The Node worker's registration handshake with the servers of its agents. `workerReady` connects
 every agent, then sends SET_NAME and one ADD_FUNC per function to each server in turn and awaits a
 PDT_OK after each message. A connection may drop messages or confirmations at any time.
 */
module Handshake {

  datatype Msg = SetName(name: string) | AddFunc(name: string)

  /** One agent and the server at its other end. */
  datatype Link = Link(
    toServer: seq<Msg>,      // registration messages in flight
    oks: nat,                // confirmations in flight
    waiting: nat,            // resolvers in the agent's queue
    lost: nat,               // messages and confirmations the connection dropped
    dropped: seq<Msg>,       // the messages among them
    name: string,            // the worker's name at the server
    added: seq<string>)      // functions added to the server's registry for this worker, in order

  const NewLink := Link([], 0, 0, 0, [], "", [])

  /** Where `workerReady` stands; message 0 is SET_NAME, message k is ADD_FUNC of function k - 1. */
  datatype Phase =
    | Connecting(a: nat)
    | Sending(a: nat, k: nat)
    | Awaiting(a: nat, k: nat)
    | Resumed(a: nat, k: nat)     // the awaited promise is resolved
    | Ready
    | Failed                      // workerReady returned an error

  datatype State = State(workerName: string, funcs: seq<string>, links: seq<Link>, phase: Phase, timedOut: bool)

  function Start(workerName: string, funcs: seq<string>, agents: nat): State
  {
    State(workerName, funcs, seq(agents, _ => NewLink),
          if agents == 0 || funcs == [] then Failed else Connecting(0), false)
  }

  function Message(s: State, k: nat): Msg
    requires k <= |s.funcs|
  {
    if k == 0 then SetName(s.workerName) else AddFunc(s.funcs[k - 1])
  }

  datatype Event =
    | Connect
    | ConnectError
    | Send                  // the message is written and a resolver queued
    | SendClosed            // the connection is closed: nothing is written, a resolver is queued all the same
    | Serve(i: nat)         // the server handles a message and confirms it
    | Deliver(i: nat)       // onOk with a resolver waiting
    | DeliverIdle(i: nat)   // onOk with none
    | Timeout               // the awaited resolver is spliced out and resolved
    | Resume                // workerReady goes on after its await
    | DropMsg(i: nat)
    | DropOk(i: nat)

  predicate Here(s: State) { !s.phase.Ready? && !s.phase.Failed? && s.phase.a < |s.links| }

  predicate Enabled(s: State, e: Event)
  {
    match e
    case Connect => s.phase.Connecting? && Here(s)
    case ConnectError => s.phase.Connecting? && Here(s)
    case Send => s.phase.Sending? && Here(s) && s.phase.k <= |s.funcs|
    case SendClosed => s.phase.Sending? && Here(s) && s.phase.k <= |s.funcs|
    case Serve(i) => i < |s.links| && s.links[i].toServer != []
    case Deliver(i) =>
      i < |s.links| && s.links[i].oks > 0 && s.links[i].waiting > 0 && s.phase.Awaiting? && s.phase.a == i
    case DeliverIdle(i) => i < |s.links| && s.links[i].oks > 0 && s.links[i].waiting == 0
    case Timeout => s.phase.Awaiting? && Here(s) && s.links[s.phase.a].waiting > 0
    case Resume => s.phase.Resumed? && Here(s)
    case DropMsg(i) => i < |s.links| && s.links[i].toServer != []
    case DropOk(i) => i < |s.links| && s.links[i].oks > 0
  }

  function Queue(l: Link, m: Msg): Link { l.(toServer := l.toServer + [m], waiting := l.waiting + 1) }

  function Unsent(l: Link, m: Msg): Link
  {
    l.(lost := l.lost + 1, dropped := l.dropped + [m], waiting := l.waiting + 1)
  }

  function LoseMsg(l: Link): Link
    requires l.toServer != []
  {
    l.(toServer := l.toServer[1..], lost := l.lost + 1, dropped := l.dropped + [l.toServer[0]])
  }

  /** The server confirms every message, but an empty name changes nothing there. */
  function Handle(l: Link): Link
    requires l.toServer != []
  {
    var l' := l.(toServer := l.toServer[1..], oks := l.oks + 1);
    match l.toServer[0]
    case SetName(n) => if n != "" then l'.(name := n) else l'
    case AddFunc(n) => if n != "" then l'.(added := l.added + [n]) else l'
  }

  function Next(s: State, a: nat, k: nat): Phase
  {
    if k < |s.funcs| then Sending(a, k + 1) else if a + 1 < |s.links| then Sending(a + 1, 0) else Ready
  }

  function Apply(s: State, e: Event): State
    requires Enabled(s, e)
  {
    match e
    case Connect => s.(phase := if s.phase.a + 1 < |s.links| then Connecting(s.phase.a + 1) else Sending(0, 0))
    case ConnectError => s.(phase := Failed)
    case Send =>
      s.(links := s.links[s.phase.a := Queue(s.links[s.phase.a], Message(s, s.phase.k))],
         phase := Awaiting(s.phase.a, s.phase.k))
    case SendClosed =>
      var l := s.links[s.phase.a];
      s.(links := s.links[s.phase.a := Unsent(l, Message(s, s.phase.k))], phase := Awaiting(s.phase.a, s.phase.k))
    case Serve(i) => s.(links := s.links[i := Handle(s.links[i])])
    case Deliver(i) =>
      var l := s.links[i];
      s.(links := s.links[i := l.(oks := l.oks - 1, waiting := l.waiting - 1)], phase := Resumed(i, s.phase.k))
    case DeliverIdle(i) => s.(links := s.links[i := s.links[i].(oks := s.links[i].oks - 1)])
    case Timeout =>
      var l := s.links[s.phase.a];
      s.(links := s.links[s.phase.a := l.(waiting := l.waiting - 1)], phase := Resumed(s.phase.a, s.phase.k),
         timedOut := true)
    case Resume => s.(phase := Next(s, s.phase.a, s.phase.k))
    case DropMsg(i) =>
      s.(links := s.links[i := LoseMsg(s.links[i])])
    case DropOk(i) =>
      var l := s.links[i];
      s.(links := s.links[i := l.(oks := l.oks - 1, lost := l.lost + 1)])
  }

  predicate Step(s: State, e: Event, s': State) { Enabled(s, e) && s' == Apply(s, e) }

  // ---------------------------------------------------------------- invariant of runs without a timeout

  function NonEmpty(names: seq<string>): seq<string>
  {
    if names == [] then []
    else
      var last := names[|names| - 1];
      NonEmpty(names[..|names| - 1]) + if last == "" then [] else [last]
  }

  lemma {:induction false} NonEmptyHas(names: seq<string>, f: string)
    ensures f in NonEmpty(names) <==> f in names && f != ""
  {
    if names != [] {
      NonEmptyHas(names[..|names| - 1], f);
      assert names == names[..|names| - 1] + [names[|names| - 1]];
    }
  }

  /** Nothing in flight, nobody waiting. */
  predicate Quiet(l: Link) { l.toServer == [] && l.oks == 0 && l.waiting == 0 && l.lost == 0 }

  /** The server has handled exactly the first `k` messages of the script. */
  predicate Handled(workerName: string, funcs: seq<string>, l: Link, k: nat)
  {
    && k <= |funcs| + 1
    && l.added == NonEmpty(funcs[..if k == 0 then 0 else k - 1])
    && l.name == if k == 0 then "" else workerName
  }

  /** Message `k` is awaited: it is in flight, or its confirmation is, or one of them is lost. */
  predicate Pending(s: State, l: Link, k: nat)
  {
    && k <= |s.funcs| && l.waiting == 1 && |l.toServer| + l.oks + l.lost == 1
    && (l.toServer != [] ==> l.toServer[0] == Message(s, k) && Handled(s.workerName, s.funcs, l, k))
    && (l.oks == 1 ==> Handled(s.workerName, s.funcs, l, k + 1))
  }

  predicate LinkOk(s: State, i: nat)
    requires i < |s.links|
  {
    var l := s.links[i];
    match s.phase
    case Connecting(_) => l == NewLink
    case Failed => l == NewLink
    case Ready => Quiet(l) && Handled(s.workerName, s.funcs, l, |s.funcs| + 1)
    case Sending(a, k) =>
      AtAgent(s, i, a) && (i == a ==> Quiet(l) && Handled(s.workerName, s.funcs, l, k) && k <= |s.funcs|)
    case Awaiting(a, k) => AtAgent(s, i, a) && (i == a ==> Pending(s, l, k))
    case Resumed(a, k) =>
      AtAgent(s, i, a) && (i == a ==> Quiet(l) && Handled(s.workerName, s.funcs, l, k + 1) && k <= |s.funcs|)
  }

  /** Agents before the current one are done, agents after it are untouched. */
  predicate AtAgent(s: State, i: nat, a: nat)
    requires i < |s.links|
  {
    && (i < a ==> Quiet(s.links[i]) && Handled(s.workerName, s.funcs, s.links[i], |s.funcs| + 1))
    && (i > a ==> s.links[i] == NewLink)
  }

  predicate Inv(s: State)
  {
    && (s.phase.Sending? || s.phase.Awaiting? || s.phase.Resumed? ==> s.phase.a < |s.links|)
    && forall i :: 0 <= i < |s.links| ==> LinkOk(s, i)
  }

  /** Serving the awaited message completes it at the server. */
  lemma ServeKeeps(s: State, l: Link, k: nat)
    requires Pending(s, l, k) && l.toServer != []
    ensures Pending(s, Handle(l), k)
  {
    if k > 0 {
      var f := s.funcs[..k];
      assert f[..|f| - 1] == s.funcs[..k - 1];
    }
  }

  /** Only the agent being awaited has anything in flight. */
  lemma OnlyAwaited(s: State, i: nat)
    requires Inv(s) && i < |s.links| && (s.links[i].toServer != [] || s.links[i].oks > 0 || s.links[i].waiting > 0)
    ensures s.phase.Awaiting? && s.phase.a == i && Pending(s, s.links[i], s.phase.k)
  {
    assert LinkOk(s, i);
    hide Handled;
  }

  lemma LinkMoves(s: State, l: Link, s': State)
    requires Inv(s) && s.phase.Awaiting? && Pending(s, l, s.phase.k)
    requires s' == s.(links := s.links[s.phase.a := l])
    ensures Inv(s')
  {
    hide Handled, Quiet;
    forall i | 0 <= i < |s'.links| ensures LinkOk(s', i) { assert LinkOk(s, i); }
  }

  lemma InFlightKept(s: State, e: Event)
    requires Inv(s) && Enabled(s, e) && (e.Serve? || e.DropMsg? || e.DropOk? || e.DeliverIdle?)
    ensures Inv(Apply(s, e)) && !e.DeliverIdle?
  {
    OnlyAwaited(s, e.i);
    var l := s.links[e.i];
    hide Inv, Handled;
    if e.Serve? { ServeKeeps(s, l, s.phase.k); }
    var s' := Apply(s, e);
    LinkMoves(s, s'.links[e.i], s');
  }

  lemma SendKept(s: State, e: Event)
    requires Inv(s) && Enabled(s, e) && (e.Send? || e.SendClosed?)
    ensures Inv(Apply(s, e))
  {
    var s' := Apply(s, e);
    hide Handled;
    forall i | 0 <= i < |s'.links| ensures LinkOk(s', i) { assert LinkOk(s, i); }
  }

  lemma DeliverKept(s: State, i: nat)
    requires Inv(s) && Enabled(s, Deliver(i))
    ensures Inv(Apply(s, Deliver(i)))
  {
    OnlyAwaited(s, i);
    var s' := Apply(s, Deliver(i));
    forall j | 0 <= j < |s'.links| ensures LinkOk(s', j) { assert LinkOk(s, j); }
  }

  lemma ResumeKept(s: State)
    requires Inv(s) && Enabled(s, Resume)
    ensures Inv(Apply(s, Resume))
  {
    var s' := Apply(s, Resume);
    assert s.funcs[..0] == [];
    forall j | 0 <= j < |s'.links| ensures LinkOk(s', j) { assert LinkOk(s, j); }
  }

  lemma ConnectKept(s: State, e: Event)
    requires Inv(s) && Enabled(s, e) && (e.Connect? || e.ConnectError?)
    ensures Inv(Apply(s, e))
  {
    var s' := Apply(s, e);
    assert s.funcs[..0] == [];
    forall j | 0 <= j < |s'.links| ensures LinkOk(s', j) { assert LinkOk(s, j); }
  }

  lemma InvKept(s: State, e: Event, s': State)
    requires Inv(s) && Step(s, e, s') && !e.Timeout?
    ensures Inv(s')
  {
    hide Inv, Enabled, Apply;
    match e
    case Send => SendKept(s, e);
    case SendClosed => SendKept(s, e);
    case Deliver(i) => DeliverKept(s, i);
    case Resume => ResumeKept(s);
    case Connect => ConnectKept(s, e);
    case ConnectError => ConnectKept(s, e);
    case _ => InFlightKept(s, e);
  }

  // ---------------------------------------------------------------- every run

  ghost predicate IsRun(ss: seq<State>, es: seq<Event>, workerName: string, funcs: seq<string>, agents: nat)
  {
    && |ss| == |es| + 1 && ss[0] == Start(workerName, funcs, agents)
    && forall i {:trigger es[i]} :: 0 <= i < |es| ==> Step(ss[i], es[i], ss[i + 1])
  }

  lemma {:induction false} RunInv(ss: seq<State>, es: seq<Event>, workerName: string, funcs: seq<string>, agents: nat,
                                  i: nat)
    requires IsRun(ss, es, workerName, funcs, agents) && i < |ss| && !ss[i].timedOut
    ensures Inv(ss[i]) && ss[i].workerName == workerName && ss[i].funcs == funcs && |ss[i].links| == agents
  {
    if i > 0 {
      assert Step(ss[i - 1], es[i - 1], ss[i]);
      RunInv(ss, es, workerName, funcs, agents, i - 1);
      hide Inv;
      InvKept(ss[i - 1], es[i - 1], ss[i]);
    }
  }

  /**
   As long as no wait has timed out: messages in flight, confirmations in flight and losses of an agent are
   as many as its waiting resolvers, and there is at most one.
   */
  lemma OneInFlight(ss: seq<State>, es: seq<Event>, workerName: string, funcs: seq<string>, agents: nat, i: nat, a: nat)
    requires IsRun(ss, es, workerName, funcs, agents) && i < |ss| && !ss[i].timedOut && a < |ss[i].links|
    ensures var l := ss[i].links[a]; |l.toServer| + l.oks + l.lost == l.waiting <= 1
  {
    RunInv(ss, es, workerName, funcs, agents, i);
    hide IsRun;
    assert LinkOk(ss[i], a);
  }

  /**
   When `workerReady` succeeds without a timeout, every server has added exactly the non-empty function
   names, once each and in order, and knows the worker's name; nothing is left in flight.
   */
  lemma ReadyMeansRegistered(ss: seq<State>, es: seq<Event>, workerName: string, funcs: seq<string>, agents: nat,
                             i: nat, a: nat)
    requires IsRun(ss, es, workerName, funcs, agents) && i < |ss| && !ss[i].timedOut && ss[i].phase.Ready? && a < agents
    ensures a < |ss[i].links| && Quiet(ss[i].links[a])
    ensures ss[i].links[a].added == NonEmpty(funcs) && ss[i].links[a].name == workerName
    ensures forall f :: f in ss[i].links[a].added <==> f in funcs && f != ""
  {
    RunInv(ss, es, workerName, funcs, agents, i);
    hide IsRun;
    assert LinkOk(ss[i], a);
    assert funcs[..|funcs|] == funcs;
    forall f ensures f in NonEmpty(funcs) <==> f in funcs && f != "" { NonEmptyHas(funcs, f); }
  }

  // ---------------------------------------------------------------- a late confirmation

  /** A run for one server and one function that ends ready although the server never added the function. */
  ghost predicate Misled(ss: seq<State>, es: seq<Event>, w: string, f: string)
  {
    IsRun(ss, es, w, [f], 1) && ss[|es|].phase.Ready? && |ss[|es|].links| == 1 && ss[|es|].links[0].added == []
  }

  function Single(w: string, f: string, l: Link, p: Phase, timedOut: bool): State { State(w, [f], [l], p, timedOut) }

  lemma LateOkFirst(w: string, f: string)
    ensures var sent := NewLink.(toServer := [SetName(w)], waiting := 1);
            && Start(w, [f], 1) == Single(w, f, NewLink, Connecting(0), false)
            && Step(Single(w, f, NewLink, Connecting(0), false), Connect, Single(w, f, NewLink, Sending(0, 0), false))
            && Step(Single(w, f, NewLink, Sending(0, 0), false), Send, Single(w, f, sent, Awaiting(0, 0), false))
            && Step(Single(w, f, sent, Awaiting(0, 0), false), Timeout,
                    Single(w, f, sent.(waiting := 0), Resumed(0, 0), true))
            && Step(Single(w, f, sent.(waiting := 0), Resumed(0, 0), true), Resume,
                    Single(w, f, sent.(waiting := 0), Sending(0, 1), true))
  {
    assert Queue(NewLink, SetName(w)).toServer == [SetName(w)];
  }

  lemma LateOkThen(w: string, f: string)
    ensures var both := NewLink.(toServer := [SetName(w), AddFunc(f)], waiting := 1);
            var served := Link([AddFunc(f)], 1, 1, 0, [], w, []);
            && Step(Single(w, f, NewLink.(toServer := [SetName(w)]), Sending(0, 1), true), Send,
                    Single(w, f, both, Awaiting(0, 1), true))
            && Step(Single(w, f, both, Awaiting(0, 1), true), Serve(0), Single(w, f, served, Awaiting(0, 1), true))
            && Step(Single(w, f, served, Awaiting(0, 1), true), Deliver(0),
                    Single(w, f, served.(oks := 0, waiting := 0), Resumed(0, 1), true))
            && Step(Single(w, f, served.(oks := 0, waiting := 0), Resumed(0, 1), true), Resume,
                    Single(w, f, served.(oks := 0, waiting := 0), Ready, true))
  {
    assert [SetName(w), AddFunc(f)][1..] == [AddFunc(f)];
    assert Queue(NewLink.(toServer := [SetName(w)]), AddFunc(f)).toServer == [SetName(w), AddFunc(f)];
  }

  /**
   With a timeout the promise fails for any name and function: the confirmation of SET_NAME comes late, is
   taken for that of ADD_FUNC, and the worker is ready with nothing registered.
   */
  lemma LateOkMisleads(w: string, f: string)
    ensures exists ss, es :: Misled(ss, es, w, f)
  {
    var es := [Connect, Send, Timeout, Resume, Send, Serve(0), Deliver(0), Resume];
    var sent := NewLink.(toServer := [SetName(w)], waiting := 1);
    var both := NewLink.(toServer := [SetName(w), AddFunc(f)], waiting := 1);
    var served := Link([AddFunc(f)], 1, 1, 0, [], w, []);
    var ss := [Single(w, f, NewLink, Connecting(0), false), Single(w, f, NewLink, Sending(0, 0), false),
               Single(w, f, sent, Awaiting(0, 0), false), Single(w, f, sent.(waiting := 0), Resumed(0, 0), true),
               Single(w, f, sent.(waiting := 0), Sending(0, 1), true), Single(w, f, both, Awaiting(0, 1), true),
               Single(w, f, served, Awaiting(0, 1), true),
               Single(w, f, served.(oks := 0, waiting := 0), Resumed(0, 1), true),
               Single(w, f, served.(oks := 0, waiting := 0), Ready, true)];
    LateOkFirst(w, f);
    LateOkThen(w, f);
    hide Step;
    assert IsRun(ss, es, w, [f], 1);
    assert Misled(ss, es, w, f);
  }

  // ---------------------------------------------------------------- runs that fail

  /** `workerReady` returned an error and no server has heard of the worker. */
  predicate Unheard(s: State) { s.phase == Failed && forall a :: 0 <= a < |s.links| ==> s.links[a] == NewLink }

  lemma NothingMore(s: State, e: Event)
    requires Unheard(s)
    ensures !Enabled(s, e)
  {
  }

  lemma RunOver(ss: seq<State>, es: seq<Event>, workerName: string, funcs: seq<string>, agents: nat, i: nat)
    requires IsRun(ss, es, workerName, funcs, agents) && i < |ss| && Unheard(ss[i])
    ensures i == |es|
  {
    if i < |es| {
      assert Step(ss[i], es[i], ss[i + 1]);
      NothingMore(ss[i], es[i]);
      assert false;
    }
  }

  /** Without an agent or without a function the call fails at once. */
  lemma NothingToDo(ss: seq<State>, es: seq<Event>, workerName: string, funcs: seq<string>, agents: nat)
    requires IsRun(ss, es, workerName, funcs, agents) && (agents == 0 || funcs == [])
    ensures es == [] && |ss| == 1 && Unheard(ss[0])
  {
    RunOver(ss, es, workerName, funcs, agents, 0);
  }

  lemma ConnectingFresh(s: State)
    requires Inv(s) && s.phase.Connecting?
    ensures forall a :: 0 <= a < |s.links| ==> s.links[a] == NewLink
  {
    forall a | 0 <= a < |s.links| ensures s.links[a] == NewLink { assert LinkOk(s, a); }
  }

  lemma EarlyBefore(s: State, e: Event, s': State)
    requires Step(s, e, s') && s'.phase.Connecting?
    ensures s.phase.Connecting? && s'.timedOut == s.timedOut
  {
  }

  lemma {:induction false} ConnectingEarly(ss: seq<State>, es: seq<Event>, workerName: string, funcs: seq<string>,
                                           agents: nat, i: nat)
    requires IsRun(ss, es, workerName, funcs, agents) && i < |ss| && ss[i].phase.Connecting?
    ensures !ss[i].timedOut
  {
    if i > 0 {
      assert Step(ss[i - 1], es[i - 1], ss[i]);
      EarlyBefore(ss[i - 1], es[i - 1], ss[i]);
      ConnectingEarly(ss, es, workerName, funcs, agents, i - 1);
    }
  }

  /** One agent that cannot connect ends it: the worker is not ready, and no server has heard of it. */
  lemma ConnectErrorEnds(ss: seq<State>, es: seq<Event>, workerName: string, funcs: seq<string>, agents: nat, i: nat)
    requires IsRun(ss, es, workerName, funcs, agents) && i < |es| && es[i].ConnectError?
    ensures |es| == i + 1 && |ss| == i + 2 && Unheard(ss[i + 1])
  {
    assert Step(ss[i], es[i], ss[i + 1]);
    ConnectingEarly(ss, es, workerName, funcs, agents, i);
    RunInv(ss, es, workerName, funcs, agents, i);
    ConnectingFresh(ss[i]);
    hide Inv;
    RunOver(ss, es, workerName, funcs, agents, i + 1);
  }
}
