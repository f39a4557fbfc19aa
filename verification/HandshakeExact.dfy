/**
 The handshake with timeouts and lost messages included: what the servers have added in every run,
 and exactly when a ready worker is registered.
 */
module HandshakeExact {
  import opened Handshake

  function NameOf(m: Msg): seq<string> { if m.AddFunc? && m.name != "" then [m.name] else [] }

  function SetOf(m: Msg): seq<string> { if m.SetName? then [m.name] else [] }

  /** The non-empty function names among some messages, in order: what serving them would add. */
  function Names(ms: seq<Msg>): seq<string>
  {
    if ms == [] then [] else NameOf(ms[0]) + Names(ms[1..])
  }

  /** The worker names among some messages. */
  function Sets(ms: seq<Msg>): seq<string>
  {
    if ms == [] then [] else SetOf(ms[0]) + Sets(ms[1..])
  }

  lemma {:induction false} NamesPush(ms: seq<Msg>, m: Msg)
    ensures Names(ms + [m]) == Names(ms) + Names([m]) && Sets(ms + [m]) == Sets(ms) + Sets([m])
  {
    if ms == [] {
      assert ms + [m] == [m];
    } else {
      hide *;
      var rest := ms[1..];
      NamesPush(rest, m);
      NamesFront(ms);
      NamesFront(ms + [m]);
      assert (ms + [m])[0] == ms[0] && (ms + [m])[1..] == rest + [m];
      Regroup(NameOf(ms[0]), Names(rest), Names([m]));
      Regroup(SetOf(ms[0]), Sets(rest), Sets([m]));
    }
  }

  lemma Regroup(a: seq<string>, b: seq<string>, c: seq<string>)
    ensures a + (b + c) == a + b + c
  {
  }

  lemma NamesFront(ms: seq<Msg>)
    requires ms != []
    ensures Names(ms) == NameOf(ms[0]) + Names(ms[1..]) && Sets(ms) == SetOf(ms[0]) + Sets(ms[1..])
  {
  }

  lemma NamesOne(m: Msg)
    ensures Names([m]) == NameOf(m) && Sets([m]) == SetOf(m)
  {
    assert [m][1..] == [];
  }

  /** How many messages of its script `workerReady` has written, or tried to write, to agent `i`. */
  function Sent(s: State, i: nat): nat
  {
    match s.phase
    case Connecting(_) => 0
    case Failed => 0
    case Ready => |s.funcs| + 1
    case Sending(a, k) => if i < a then |s.funcs| + 1 else if i == a then k else 0
    case Awaiting(a, k) => if i < a then |s.funcs| + 1 else if i == a then k + 1 else 0
    case Resumed(a, k) => if i < a then |s.funcs| + 1 else if i == a then k + 1 else 0
  }

  function Asked(funcs: seq<string>, n: nat): seq<string>
    requires n <= |funcs| + 1
  {
    NonEmpty(funcs[..if n == 0 then 0 else n - 1])
  }

  /** Names asked for are added, in flight or dropped; with nothing dropped, in order. */
  ghost predicate Whole(added: seq<string>, inFlight: seq<string>, dropped: seq<string>, asked: seq<string>)
  {
    && multiset(added) + multiset(inFlight) + multiset(dropped) == multiset(asked)
    && (dropped == [] ==> added + inFlight == asked)
  }

  lemma WholeSend(a: seq<string>, f: seq<string>, d: seq<string>, q: seq<string>, x: seq<string>)
    requires Whole(a, f, d, q)
    ensures Whole(a, f + x, d, q + x)
  {
    assert a + (f + x) == a + f + x;
  }

  lemma WholeDrop(a: seq<string>, f: seq<string>, d: seq<string>, q: seq<string>, x: seq<string>)
    requires Whole(a, f, d, q)
    ensures Whole(a, f, d + x, q + x)
  {
    if d + x == [] { assert q + x == q; }
  }

  lemma WholeServe(a: seq<string>, x: seq<string>, f: seq<string>, d: seq<string>, q: seq<string>)
    requires Whole(a, x + f, d, q)
    ensures Whole(a + x, f, d, q)
  {
    assert a + (x + f) == a + x + f;
  }

  lemma WholeLose(a: seq<string>, x: seq<string>, f: seq<string>, d: seq<string>, q: seq<string>)
    requires Whole(a, x + f, d, q)
    ensures Whole(a, f, d + x, q)
  {
    if d + x == [] { assert x + f == f; }
  }

  ghost predicate NamesKept(funcs: seq<string>, l: Link, n: nat)
  {
    n <= |funcs| + 1 && Whole(l.added, Names(l.toServer), Names(l.dropped), Asked(funcs, n))
  }

  /** The worker's name, once sent, is at the server, or still in flight or dropped. */
  predicate NameKept(workerName: string, l: Link, n: nat)
  {
    if n == 0 then l.toServer == [] && l.dropped == [] && l.name == ""
    else
      && (forall i :: 0 <= i < |Sets(l.toServer)| ==> Sets(l.toServer)[i] == workerName)
      && |Sets(l.toServer)| + |Sets(l.dropped)| <= 1
      && l.name == if |Sets(l.toServer)| + |Sets(l.dropped)| == 0 then workerName else ""
  }

  ghost predicate LinkKept(workerName: string, funcs: seq<string>, l: Link, n: nat)
  {
    NamesKept(funcs, l, n) && NameKept(workerName, l, n)
  }

  predicate Positioned(s: State)
  {
    s.phase.Sending? || s.phase.Awaiting? || s.phase.Resumed? ==> s.phase.a < |s.links| && s.phase.k <= |s.funcs|
  }

  ghost predicate Conserved(s: State)
  {
    Positioned(s) && forall i :: 0 <= i < |s.links| ==> LinkKept(s.workerName, s.funcs, s.links[i], Sent(s, i))
  }

  // ---------------------------------------------------------------- one link

  lemma AskedMore(s: State, k: nat)
    requires k <= |s.funcs|
    ensures Asked(s.funcs, k + 1) == Asked(s.funcs, k) + Names([Message(s, k)])
    ensures Sets([Message(s, k)]) == if k == 0 then [s.workerName] else []
  {
    NamesOne(Message(s, k));
    if k > 0 {
      var f := s.funcs[..k];
      assert f[..|f| - 1] == s.funcs[..k - 1];
    }
  }

  lemma NamesNone()
    ensures Names([]) == [] && Sets([]) == []
  {
  }

  lemma NamesHead(ms: seq<Msg>)
    requires ms != []
    ensures Names(ms) == Names([ms[0]]) + Names(ms[1..]) && Sets(ms) == Sets([ms[0]]) + Sets(ms[1..])
  {
    NamesOne(ms[0]);
  }

  lemma QueueKeeps(s: State, l: Link, k: nat)
    requires k <= |s.funcs| && LinkKept(s.workerName, s.funcs, l, k)
    ensures LinkKept(s.workerName, s.funcs, Queue(l, Message(s, k)), k + 1)
  {
    hide Names, Sets, Asked, Message, Whole, NameKept;
    var m := Message(s, k);
    AskedMore(s, k);
    NamesPush(l.toServer, m);
    WholeSend(l.added, Names(l.toServer), Names(l.dropped), Asked(s.funcs, k), Names([m]));
    QueueName(s, l, k);
  }

  lemma QueueName(s: State, l: Link, k: nat)
    requires k <= |s.funcs| && NameKept(s.workerName, l, k)
    ensures NameKept(s.workerName, Queue(l, Message(s, k)), k + 1)
  {
    hide Names, Sets, Asked, Message;
    AskedMore(s, k);
    NamesPush(l.toServer, Message(s, k));
    NamesNone();
  }

  lemma UnsentKeeps(s: State, l: Link, k: nat)
    requires k <= |s.funcs| && LinkKept(s.workerName, s.funcs, l, k)
    ensures LinkKept(s.workerName, s.funcs, Unsent(l, Message(s, k)), k + 1)
  {
    hide Names, Sets, Asked, Message, Whole, NameKept;
    var m := Message(s, k);
    AskedMore(s, k);
    NamesPush(l.dropped, m);
    WholeDrop(l.added, Names(l.toServer), Names(l.dropped), Asked(s.funcs, k), Names([m]));
    UnsentName(s, l, k);
  }

  lemma UnsentName(s: State, l: Link, k: nat)
    requires k <= |s.funcs| && NameKept(s.workerName, l, k)
    ensures NameKept(s.workerName, Unsent(l, Message(s, k)), k + 1)
  {
    hide Names, Sets, Asked, Message;
    AskedMore(s, k);
    NamesPush(l.dropped, Message(s, k));
    NamesNone();
  }

  /** What serving one message adds. */
  lemma Served(l: Link)
    requires l.toServer != []
    ensures Handle(l).added == l.added + Names([l.toServer[0]])
  {
    NamesOne(l.toServer[0]);
    assert l.added + [] == l.added;
  }

  lemma ServeKeeps(w: string, funcs: seq<string>, l: Link, n: nat)
    requires LinkKept(w, funcs, l, n) && l.toServer != []
    ensures LinkKept(w, funcs, Handle(l), n)
  {
    hide Names, Sets, Asked, Whole, NameKept;
    NamesHead(l.toServer);
    Served(l);
    WholeServe(l.added, Names([l.toServer[0]]), Names(l.toServer[1..]), Names(l.dropped), Asked(funcs, n));
    ServeName(w, l, n);
  }

  lemma ServeName(w: string, l: Link, n: nat)
    requires NameKept(w, l, n) && l.toServer != []
    ensures NameKept(w, Handle(l), n)
  {
    hide Names, Sets;
    var m := l.toServer[0];
    NamesHead(l.toServer);
    NamesOne(m);
    if m.SetName? {
      assert Sets(l.toServer)[0] == m.name == w;
    } else {
      assert Sets(l.toServer) == Sets(l.toServer[1..]);
    }
  }

  lemma LoseKeeps(w: string, funcs: seq<string>, l: Link, n: nat)
    requires LinkKept(w, funcs, l, n) && l.toServer != []
    ensures LinkKept(w, funcs, LoseMsg(l), n)
  {
    hide Names, Sets, Asked, Whole, NameKept;
    var m := l.toServer[0];
    NamesHead(l.toServer);
    NamesPush(l.dropped, m);
    WholeLose(l.added, Names([m]), Names(l.toServer[1..]), Names(l.dropped), Asked(funcs, n));
    LoseName(w, l, n);
  }

  lemma LoseName(w: string, l: Link, n: nat)
    requires NameKept(w, l, n) && l.toServer != []
    ensures NameKept(w, LoseMsg(l), n)
  {
    hide Names, Sets;
    var m := l.toServer[0];
    NamesHead(l.toServer);
    NamesPush(l.dropped, m);
    forall i | 0 <= i < |Sets(l.toServer[1..])| ensures Sets(l.toServer[1..])[i] == w {
      assert Sets(l.toServer[1..])[i] == Sets(l.toServer)[|Sets([m])| + i];
    }
  }

  // ---------------------------------------------------------------- every event

  /** Only link `a` changes, and the position of the others does not. */
  lemma OneLink(s: State, s': State, a: nat)
    requires Conserved(s) && Positioned(s') && a < |s.links| == |s'.links| && s'.funcs == s.funcs
             && s'.workerName == s.workerName
    requires forall i :: 0 <= i < |s.links| && i != a ==> s'.links[i] == s.links[i] && Sent(s', i) == Sent(s, i)
    requires LinkKept(s.workerName, s.funcs, s'.links[a], Sent(s', a))
    ensures Conserved(s')
  {
    hide LinkKept, Sent, Positioned;
    forall i | 0 <= i < |s'.links| ensures LinkKept(s'.workerName, s'.funcs, s'.links[i], Sent(s', i)) {
      assert LinkKept(s.workerName, s.funcs, s.links[i], Sent(s, i));
    }
  }

  lemma SendConserves(s: State, e: Event)
    requires Conserved(s) && Enabled(s, e) && (e.Send? || e.SendClosed?)
    ensures Conserved(Apply(s, e))
  {
    hide LinkKept, Message, Queue, Unsent;
    var a, k := s.phase.a, s.phase.k;
    assert LinkKept(s.workerName, s.funcs, s.links[a], Sent(s, a));
    if e.Send? { QueueKeeps(s, s.links[a], k); } else { UnsentKeeps(s, s.links[a], k); }
    OneLink(s, Apply(s, e), a);
  }

  lemma FlightConserves(s: State, e: Event)
    requires Conserved(s) && Enabled(s, e) && (e.Serve? || e.DropMsg?)
    ensures Conserved(Apply(s, e))
  {
    hide LinkKept, Handle, LoseMsg;
    var l, n := s.links[e.i], Sent(s, e.i);
    assert LinkKept(s.workerName, s.funcs, l, n);
    if e.Serve? { ServeKeeps(s.workerName, s.funcs, l, n); } else { LoseKeeps(s.workerName, s.funcs, l, n); }
    OneLink(s, Apply(s, e), e.i);
  }

  predicate MovesMessage(e: Event) { e.Send? || e.SendClosed? || e.Serve? || e.DropMsg? }

  lemma SameMessages(s: State, e: Event, i: nat)
    requires Positioned(s) && Enabled(s, e) && !MovesMessage(e) && i < |s.links|
    ensures var s' := Apply(s, e);
            && |s'.links| == |s.links| && s'.funcs == s.funcs && s'.workerName == s.workerName
            && Sent(s', i) == Sent(s, i) && Positioned(s')
            && var l, l' := s.links[i], s'.links[i];
               l'.toServer == l.toServer && l'.dropped == l.dropped && l'.added == l.added && l'.name == l.name
  {
  }

  /** The other events move confirmations, resolvers and the position, but no message. */
  lemma OtherConserves(s: State, e: Event)
    requires Conserved(s) && Enabled(s, e) && !MovesMessage(e)
    ensures Conserved(Apply(s, e))
  {
    hide Enabled, Apply, Names, Sets, Asked, Whole, Sent, Positioned, MovesMessage;
    SomeLink(s, e);
    SameMessages(s, e, 0);
    var s' := Apply(s, e);
    forall i | 0 <= i < |s'.links| ensures LinkKept(s'.workerName, s'.funcs, s'.links[i], Sent(s', i)) {
      SameMessages(s, e, i);
      assert LinkKept(s.workerName, s.funcs, s.links[i], Sent(s, i));
    }
  }

  lemma SomeLink(s: State, e: Event)
    requires Enabled(s, e)
    ensures s.links != []
  {
  }

  lemma ConservedKept(s: State, e: Event, s': State)
    requires Conserved(s) && Step(s, e, s')
    ensures Conserved(s') && s'.workerName == s.workerName && s'.funcs == s.funcs && |s'.links| == |s.links|
  {
    hide Conserved;
    if e.Send? || e.SendClosed? { SendConserves(s, e); }
    else if e.Serve? || e.DropMsg? { FlightConserves(s, e); }
    else { OtherConserves(s, e); }
  }

  lemma StartConserved(workerName: string, funcs: seq<string>, agents: nat)
    ensures Conserved(Start(workerName, funcs, agents))
  {
    assert funcs[..0] == [];
  }

  // ---------------------------------------------------------------- every run

  lemma {:induction false} RunConserved(ss: seq<State>, es: seq<Event>, workerName: string, funcs: seq<string>,
                                        agents: nat, i: nat)
    requires IsRun(ss, es, workerName, funcs, agents) && i < |ss|
    ensures Conserved(ss[i]) && ss[i].workerName == workerName && ss[i].funcs == funcs && |ss[i].links| == agents
  {
    hide Conserved, Step;
    if i == 0 {
      StartConserved(workerName, funcs, agents);
    } else {
      assert Step(ss[i - 1], es[i - 1], ss[i]);
      RunConserved(ss, es, workerName, funcs, agents, i - 1);
      hide IsRun;
      ConservedKept(ss[i - 1], es[i - 1], ss[i]);
    }
  }

  /**
   In every run, timeouts and losses included: a ready worker's functions are all registered at a
   server, once each and in order, if and only if no non-empty function name is still in flight to it
   and none was dropped. The same for the worker's name.
   */
  lemma ReadyIffDelivered(ss: seq<State>, es: seq<Event>, workerName: string, funcs: seq<string>, agents: nat, i: nat,
                          a: nat)
    requires IsRun(ss, es, workerName, funcs, agents) && i < |ss| && ss[i].phase.Ready? && a < agents
    ensures a < |ss[i].links|
    ensures var l := ss[i].links[a];
            && (l.added == NonEmpty(funcs) <==> Names(l.toServer) == [] && Names(l.dropped) == [])
            && (l.name == workerName <==> workerName == "" || (Sets(l.toServer) == [] && Sets(l.dropped) == []))
  {
    RunConserved(ss, es, workerName, funcs, agents, i);
    hide IsRun, Names, Sets;
    var l := ss[i].links[a];
    assert LinkKept(workerName, funcs, l, |funcs| + 1);
    assert funcs[..|funcs|] == funcs;
    AllArrived(l.added, Names(l.toServer), Names(l.dropped), NonEmpty(funcs));
  }

  lemma AllArrived(a: seq<string>, f: seq<string>, d: seq<string>, q: seq<string>)
    requires Whole(a, f, d, q)
    ensures a == q <==> f == [] && d == []
  {
    assert |multiset(a)| == |a| && |multiset(f)| == |f| && |multiset(d)| == |d| && |multiset(q)| == |q|;
    if f == [] && d == [] { assert a + f == a; }
  }

  /**
   Function by function, as the names of a worker's function map are distinct: registered if and only if
   neither in flight nor dropped.
   */
  lemma FunctionIffDelivered(ss: seq<State>, es: seq<Event>, workerName: string, funcs: seq<string>, agents: nat,
                             i: nat, a: nat, f: string)
    requires IsRun(ss, es, workerName, funcs, agents) && i < |ss| && ss[i].phase.Ready? && a < agents
    requires Different(funcs)
    requires f in funcs && f != ""
    ensures a < |ss[i].links|
    ensures var l := ss[i].links[a]; f in l.added <==> f !in Names(l.toServer) && f !in Names(l.dropped)
  {
    hide IsRun, Names, Whole, NameKept, NonEmpty, Conserved;
    RunConserved(ss, es, workerName, funcs, agents, i);
    var l := ss[i].links[a];
    ReadyWhole(ss[i], a);
    NonEmptyOnce(funcs, f);
    OneOf(l.added, Names(l.toServer), Names(l.dropped), NonEmpty(funcs), f);
  }

  lemma ReadyWhole(s: State, a: nat)
    requires Conserved(s) && s.phase.Ready? && a < |s.links|
    ensures var l := s.links[a]; Whole(l.added, Names(l.toServer), Names(l.dropped), NonEmpty(s.funcs))
  {
    hide Names, Whole, NameKept, NonEmpty;
    assert LinkKept(s.workerName, s.funcs, s.links[a], |s.funcs| + 1);
    assert s.funcs[..|s.funcs|] == s.funcs;
  }

  lemma OneOf(a: seq<string>, f: seq<string>, d: seq<string>, q: seq<string>, x: string)
    requires Whole(a, f, d, q) && multiset(q)[x] == 1
    ensures x in a <==> x !in f && x !in d
  {
    assert multiset(a)[x] + multiset(f)[x] + multiset(d)[x] == 1;
    assert x in a <==> multiset(a)[x] > 0;
    assert x in f <==> multiset(f)[x] > 0;
    assert x in d <==> multiset(d)[x] > 0;
  }

  lemma {:induction false} NonEmptyOnce(names: seq<string>, f: string)
    requires Different(names)
    ensures multiset(NonEmpty(names))[f] == if f in names && f != "" then 1 else 0
  {
    if names != [] {
      var n := |names| - 1;
      var t, x := names[..n], names[n];
      assert NonEmpty(names) == if x == "" then NonEmpty(t) else NonEmpty(t) + [x];
      hide NonEmpty, Different;
      DifferentInit(names, f);
      NonEmptyOnce(t, f);
      CountPush(NonEmpty(t), x, f);
    }
  }

  predicate Different(names: seq<string>) { forall i, j :: 0 <= i < j < |names| ==> names[i] != names[j] }

  lemma DifferentInit(names: seq<string>, f: string)
    requires names != [] && Different(names)
    ensures var t, x := names[..|names| - 1], names[|names| - 1];
            Different(t) && x !in t && (f in names <==> f in t || f == x)
  {
    var t, x := names[..|names| - 1], names[|names| - 1];
    assert names == t + [x];
  }

  lemma CountPush(a: seq<string>, x: string, f: string)
    ensures multiset(a + [x])[f] == multiset(a)[f] + if x == f then 1 else 0
  {
  }

  // ---------------------------------------------------------------- progress

  /** The steps `workerReady` itself takes or waits for; the others happen at the servers and on the wire. */
  predicate Own(e: Event)
  {
    e.Connect? || e.ConnectError? || e.Send? || e.SendClosed? || e.Deliver? || e.Timeout? || e.Resume?
  }

  /** How far the call has come: one step per connection, three per message. */
  function Rank(s: State): int
  {
    var all, n := |s.funcs| + 1, |s.links|;
    match s.phase
    case Connecting(a) => a
    case Sending(a, k) => n + 3 * (a * all + k)
    case Awaiting(a, k) => n + 3 * (a * all + k) + 1
    case Resumed(a, k) => n + 3 * (a * all + k) + 2
    case Ready => n + 3 * (n * all)
    case Failed => 0
  }

  /** The position is within the script, and an awaited resolver is in its queue. */
  predicate Going(s: State)
  {
    && Positioned(s) && (s.phase.Connecting? ==> s.phase.a < |s.links|)
    && (s.phase.Awaiting? ==> s.links[s.phase.a].waiting > 0)
  }

  lemma GoingKept(s: State, e: Event, s': State)
    requires Going(s) && Step(s, e, s')
    ensures Going(s')
  {
  }

  lemma RankStep(s: State, e: Event, s': State)
    requires Going(s) && Step(s, e, s') && !e.ConnectError?
    ensures Rank(s') == Rank(s) + if Own(e) then 1 else 0
  {
    if e.Resume? { NextRank(s); }
  }

  lemma NextRank(s: State)
    requires s.phase.Resumed? && Going(s)
    ensures Rank(s.(phase := Next(s, s.phase.a, s.phase.k))) == Rank(s) + 1
  {
    var a, k, all := s.phase.a, s.phase.k, |s.funcs| + 1;
    assert (a + 1) * all == a * all + all;
    if k == |s.funcs| && a + 1 == |s.links| { assert |s.links| * all == (a + 1) * all; }
  }

  function OwnSteps(es: seq<Event>): nat
  {
    if es == [] then 0 else OwnSteps(es[..|es| - 1]) + if Own(es[|es| - 1]) then 1 else 0
  }

  lemma {:induction false} RankRun(ss: seq<State>, es: seq<Event>, workerName: string, funcs: seq<string>, agents: nat,
                                   i: nat)
    requires IsRun(ss, es, workerName, funcs, agents) && i < |ss|
    ensures i <= |es| && Going(ss[i]) && |ss[i].links| == agents && ss[i].funcs == funcs
    ensures ss[i].phase != Failed ==> Rank(ss[i]) == OwnSteps(es[..i])
  {
    assert |ss| == |es| + 1;
    if i > 0 {
      RankRun(ss, es, workerName, funcs, agents, i - 1);
      var s, e, s' := ss[i - 1], es[i - 1], ss[i];
      assert Step(s, e, s');
      assert es[..i][..i - 1] == es[..i - 1];
      FailedOnly(s, e, s');
      hide IsRun, Going, Rank, Step;
      GoingKept(s, e, s');
      if s'.phase != Failed { RankStep(s, e, s'); }
    }
  }

  lemma FailedOnly(s: State, e: Event, s': State)
    requires Step(s, e, s')
    ensures e.ConnectError? || s.phase == Failed <==> s'.phase == Failed
    ensures |s'.links| == |s.links| && s'.funcs == s.funcs
  {
  }

  /**
   A ready worker has taken one step per agent to connect and three per agent and message: the message is
   sent, its confirmation or the timeout comes, and the call goes on. No message is skipped or sent again.
   */
  lemma ReadyAfter(ss: seq<State>, es: seq<Event>, workerName: string, funcs: seq<string>, agents: nat, i: nat)
    requires IsRun(ss, es, workerName, funcs, agents) && i < |ss| && ss[i].phase.Ready?
    ensures i <= |es| && OwnSteps(es[..i]) == agents + 3 * (agents * (|funcs| + 1))
  {
    hide IsRun;
    RankRun(ss, es, workerName, funcs, agents, i);
  }

  /** The call never hangs: unless it is over, its next step is possible, if need be the timeout. */
  lemma NeverStuck(ss: seq<State>, es: seq<Event>, workerName: string, funcs: seq<string>, agents: nat, i: nat)
    requires IsRun(ss, es, workerName, funcs, agents) && i < |ss|
    ensures match ss[i].phase
            case Connecting(_) => Enabled(ss[i], Connect) && Enabled(ss[i], ConnectError)
            case Sending(_, _) => Enabled(ss[i], Send) && Enabled(ss[i], SendClosed)
            case Awaiting(_, _) => Enabled(ss[i], Timeout)
            case Resumed(_, _) => Enabled(ss[i], Resume)
            case _ => true
  {
    RankRun(ss, es, workerName, funcs, agents, i);
    hide IsRun, Rank;
  }

  // ---------------------------------------------------------------- confirmations

  /** One confirmation for every message served, less those delivered or lost. */
  function OkSum(es: seq<Event>, a: nat): int
  {
    if es == [] then 0 else
      var e := es[|es| - 1];
      OkSum(es[..|es| - 1], a)
      + if e == Serve(a) then 1 else if e == Deliver(a) || e == DeliverIdle(a) || e == DropOk(a) then -1 else 0
  }

  lemma OkStep(s: State, e: Event, s': State, a: nat)
    requires Step(s, e, s') && a < |s.links|
    ensures a < |s'.links|
    ensures s'.links[a].oks == s.links[a].oks
            + if e == Serve(a) then 1 else if e == Deliver(a) || e == DeliverIdle(a) || e == DropOk(a) then -1 else 0
  {
  }

  /** The server confirms each message once, and each confirmation reaches its agent once, unless it is lost. */
  lemma {:induction false} OksCounted(ss: seq<State>, es: seq<Event>, workerName: string, funcs: seq<string>,
                                      agents: nat, i: nat, a: nat)
    requires IsRun(ss, es, workerName, funcs, agents) && i < |ss| && a < agents
    ensures i <= |es| && a < |ss[i].links| && ss[i].links[a].oks == OkSum(es[..i], a)
  {
    assert |ss| == |es| + 1;
    if i > 0 {
      OksCounted(ss, es, workerName, funcs, agents, i - 1, a);
      assert Step(ss[i - 1], es[i - 1], ss[i]);
      hide IsRun, Step;
      OkStep(ss[i - 1], es[i - 1], ss[i], a);
      assert es[..i][..i - 1] == es[..i - 1];
    }
  }
}
