/**
 Calls and answers end to end: no answer carries a request id, a reply settles the oldest call waiting
 on its handle, and an error answer fails every call that waits. When does every call that is settled
 get the result of its own request?
 */
module NodeMatching {
  import opened Bytes
  import opened NodeClient

  /** What happens to a client: it calls, hears a reply or an error answer, or loses its connection. */
  datatype Entry =
    | Called(h: Handle, call: Call)
    | Replied(h: Handle, id: nat, packet: Bytes)
    | Erred(id: nat)
    | Cut

  type Log = seq<Entry>

  predicate CallOn(e: Entry, h: Handle) { e.Called? && e.h == h }

  predicate ReplyOn(e: Entry, h: Handle) { e.Replied? && e.h == h }

  /** Every waiting call, on every handle, fails. */
  predicate Fails(e: Entry) { e.Erred? || e.Cut? }

  function PlayOne(c: Calls, e: Entry): Calls
  {
    match e
    case Called(h, call) => Enqueue(c, h, call)
    case Replied(h, _, packet) => Settle(c, h, packet)
    case _ => FailAll(c)
  }

  /** The client after that: `id` numbers the request, which neither packet nor client carries. */
  function Play(log: Log): Calls
  {
    if log == [] then Calls(map[], map[], map[]) else PlayOne(Play(log[..|log| - 1]), log[|log| - 1])
  }

  function Ids(calls: seq<Call>): (r: seq<nat>)
    ensures |r| == |calls|
  {
    seq(|calls|, i requires 0 <= i < |calls| => calls[i].id)
  }

  /** The calls made on `h`. */
  function CallIds(log: Log, h: Handle): seq<nat>
  {
    if log == [] then [] else
      var e := log[|log| - 1];
      CallIds(log[..|log| - 1], h) + if CallOn(e, h) then [e.call.id] else []
  }

  /** The requests on `h` that were replied to. */
  function ReplyIds(log: Log, h: Handle): seq<nat>
  {
    if log == [] then [] else
      var e := log[|log| - 1];
      ReplyIds(log[..|log| - 1], h) + if ReplyOn(e, h) then [e.id] else []
  }

  /** The calls on `h` made since all calls last failed. */
  function Since(log: Log, h: Handle): seq<Call>
  {
    if log == [] then [] else
      var t, e := log[..|log| - 1], log[|log| - 1];
      if Fails(e) then [] else if CallOn(e, h) then Since(t, h) + [e.call] else Since(t, h)
  }

  /** The requests on `h` called since then that were replied to. */
  function Prompt(log: Log, h: Handle): seq<nat>
  {
    if log == [] then [] else
      var t, e := log[..|log| - 1], log[|log| - 1];
      if Fails(e) then []
      else if ReplyOn(e, h) && e.id in Ids(Since(t, h)) then Prompt(t, h) + [e.id]
      else Prompt(t, h)
  }

  lemma ListsPush(t: Log, e: Entry, h: Handle)
    ensures CallIds(t + [e], h) == CallIds(t, h) + if CallOn(e, h) then [e.call.id] else []
    ensures ReplyIds(t + [e], h) == ReplyIds(t, h) + if ReplyOn(e, h) then [e.id] else []
  {
    assert (t + [e])[..|t|] == t;
  }

  lemma PlayPush(t: Log, e: Entry)
    ensures Play(t + [e]) == PlayOne(Play(t), e)
  {
    assert (t + [e])[..|t|] == t;
  }

  /** No request on `h` is replied to twice. */
  predicate Once(log: Log, h: Handle)
  {
    forall i, j :: 0 <= i < j < |log| && ReplyOn(log[i], h) && ReplyOn(log[j], h) ==> log[i].id != log[j].id
  }

  /** Nobody hears the reply to a call before making it. */
  predicate Causal(log: Log)
  {
    forall j :: 0 <= j < |log| && log[j].Replied? ==>
      exists i :: 0 <= i < j && CallOn(log[i], log[j].h) && log[i].call.id == log[j].id
  }

  // ---------------------------------------------------------------- which call a reply is given to

  /** How many of the calls since the last failure have been given a reply. */
  function Taken(log: Log, h: Handle): (n: nat)
    ensures n <= |Since(log, h)|
  {
    if log == [] then 0 else
      var t, e := log[..|log| - 1], log[|log| - 1];
      if Fails(e) then 0 else if ReplyOn(e, h) && Taken(t, h) < |Since(t, h)| then Taken(t, h) + 1 else Taken(t, h)
  }

  lemma QueueStep(c: Calls, e: Entry, h: Handle)
    ensures var q, q' := Get(c.pending, h), Get(PlayOne(c, e).pending, h);
            q' == if Fails(e) then [] else if CallOn(e, h) then q + [e.call]
                  else if ReplyOn(e, h) && q != [] then q[1..] else q
  {
  }

  /** In every log the calls that wait on `h` are those made since the last failure, less the first ones replied to. */
  lemma {:induction false} Waiting(log: Log, h: Handle)
    ensures Get(Play(log).pending, h) == Since(log, h)[Taken(log, h)..]
  {
    if log != [] {
      var t, e := log[..|log| - 1], log[|log| - 1];
      Waiting(t, h);
      QueueStep(Play(t), e, h);
      hide PlayOne;
      var cs, n := Since(t, h), Taken(t, h);
      if CallOn(e, h) {
        assert (cs + [e.call])[n..] == cs[n..] + [e.call];
      } else if ReplyOn(e, h) && n < |cs| {
        assert cs[n..][1..] == cs[n + 1..];
      }
    }
  }

  /** A call that was given a reply, and the request the reply is for. */
  datatype Pair = Pair(call: Call, id: nat, packet: Bytes)

  /** Which call each reply on `h` was given to. */
  function Given(log: Log, h: Handle): seq<Pair>
  {
    if log == [] then [] else
      var t, e := log[..|log| - 1], log[|log| - 1];
      var q := Get(Play(t).pending, h);
      Given(t, h) + if ReplyOn(e, h) && q != [] then [Pair(q[0], e.id, e.packet)] else []
  }

  /** Every call on `h` that was given a reply was given the reply to its own request. */
  predicate AllOwn(log: Log, h: Handle)
  {
    forall n :: 0 <= n < |Given(log, h)| ==> Given(log, h)[n].call.id == Given(log, h)[n].id
  }

  /** In every log the n-th reply since the last failure that finds a call waiting is given to the n-th call since. */
  lemma NthReplyNthCall(log: Log, h: Handle, e: Entry)
    requires ReplyOn(e, h)
    ensures var cs, n := Since(log, h), Taken(log, h);
            Given(log + [e], h) == Given(log, h) + if n < |cs| then [Pair(cs[n], e.id, e.packet)] else []
  {
    Waiting(log, h);
    hide Play, Since, Taken;
    assert (log + [e])[..|log|] == log;
  }

  function SettledOf(gs: seq<Gone>): seq<Gone>
  {
    if gs == [] then [] else
      SettledOf(gs[..|gs| - 1]) + if gs[|gs| - 1].Settled? then [gs[|gs| - 1]] else []
  }

  function Outcomes(ps: seq<Pair>): (r: seq<Gone>)
    ensures |r| == |ps|
  {
    seq(|ps|, i requires 0 <= i < |ps| => Settled(ps[i].call, ps[i].packet))
  }

  lemma SettledPush(gs: seq<Gone>, g: Gone)
    ensures SettledOf(gs + [g]) == SettledOf(gs) + if g.Settled? then [g] else []
  {
    assert (gs + [g])[..|gs|] == gs;
  }

  lemma {:induction false} NoneSettled(gs: seq<Gone>, q: seq<Call>)
    ensures SettledOf(gs + Failures(q)) == SettledOf(gs)
  {
    if q == [] {
      assert gs + Failures(q) == gs;
    } else {
      var n := |q| - 1;
      NoneSettled(gs, q[..n]);
      SettledPush(gs + Failures(q[..n]), Failed(q[n]));
      assert gs + Failures(q) == gs + Failures(q[..n]) + [Failed(q[n])];
    }
  }

  lemma GoneStep(c: Calls, e: Entry, h: Handle)
    ensures var q, g := Get(c.pending, h), Get(c.gone, h);
            Get(PlayOne(c, e).gone, h) == if Fails(e) then g + Failures(q)
                                          else if ReplyOn(e, h) && q != [] then g + [Settled(q[0], e.packet)] else g
  {
    var q, g := Get(c.pending, h), Get(c.gone, h);
    if Fails(e) && h !in c.gone.Keys + c.pending.Keys { assert g + Failures(q) == []; }
  }

  /** The calls settled on `h`, in order, each with its packet, are the pairs given. */
  lemma {:induction false} GivenIsSettled(log: Log, h: Handle)
    ensures SettledOf(Get(Play(log).gone, h)) == Outcomes(Given(log, h))
  {
    if log != [] {
      var t, e := log[..|log| - 1], log[|log| - 1];
      GivenIsSettled(t, h);
      GoneStep(Play(t), e, h);
      hide PlayOne;
      var c, ps := Play(t), Given(t, h);
      var q, g := Get(c.pending, h), Get(c.gone, h);
      if Fails(e) {
        NoneSettled(g, q);
      } else if ReplyOn(e, h) && q != [] {
        SettledPush(g, Settled(q[0], e.packet));
        assert Outcomes(ps + [Pair(q[0], e.id, e.packet)]) == Outcomes(ps) + [Settled(q[0], e.packet)];
      }
    }
  }

  lemma {:induction false} SettledIn(gs: seq<Gone>, n: nat)
    requires n < |gs| && gs[n].Settled?
    ensures gs[n] in SettledOf(gs)
  {
    if n < |gs| - 1 { SettledIn(gs[..|gs| - 1], n); }
  }

  lemma {:induction false} GivenIsReply(log: Log, h: Handle, m: nat)
    requires m < |Given(log, h)|
    ensures Replied(h, Given(log, h)[m].id, Given(log, h)[m].packet) in log
  {
    var t := log[..|log| - 1];
    if m < |Given(t, h)| { GivenIsReply(t, h, m); }
  }

  /** A call that is settled was given a reply, and its packet is that reply's. */
  lemma SettledByReply(log: Log, h: Handle, n: nat)
    requires n < |Get(Play(log).gone, h)| && Get(Play(log).gone, h)[n].Settled?
    ensures var g := Get(Play(log).gone, h)[n];
            exists id :: Pair(g.call, id, g.packet) in Given(log, h) && Replied(h, id, g.packet) in log
  {
    var g := Get(Play(log).gone, h)[n];
    SettledIn(Get(Play(log).gone, h), n);
    GivenIsSettled(log, h);
    hide Play, SettledOf;
    var ps := Given(log, h);
    var m :| 0 <= m < |ps| && Outcomes(ps)[m] == g;
    GivenIsReply(log, h, m);
    assert ps[m] == Pair(g.call, ps[m].id, g.packet);
  }

  // ---------------------------------------------------------------- when every call gets its own reply

  /** At every point the replies to calls made since the last failure came in the order of those calls, none skipped. */
  predicate InOrder(log: Log, h: Handle)
  {
    forall k :: 0 <= k <= |log| ==> Kept(log[..k], h)
  }

  predicate Kept(log: Log, h: Handle) { Prompt(log, h) <= Ids(Since(log, h)) }

  /** A reply to a call that had failed already comes when no later call on `h` is unanswered. */
  predicate NoStray(log: Log, h: Handle)
  {
    forall k :: 0 <= k < |log| && Stray(log, h, k) ==> |Prompt(log[..k], h)| >= |Since(log[..k], h)|
  }

  predicate Stray(log: Log, h: Handle, k: nat)
    requires k < |log|
  {
    ReplyOn(log[k], h) && log[k].id !in Ids(Since(log[..k], h))
  }

  lemma CutAt(log: Log, k: nat)
    requires log != [] && k < |log|
    ensures log[..|log| - 1][..k] == log[..k]
  {
  }

  lemma InOrderStep(log: Log, h: Handle)
    requires log != []
    ensures InOrder(log, h) <==> InOrder(log[..|log| - 1], h) && Prompt(log, h) <= Ids(Since(log, h))
  {
    hide Kept;
    var t := log[..|log| - 1];
    assert log[..|log|] == log;
    forall k | 0 <= k <= |t| ensures Kept(t[..k], h) == Kept(log[..k], h) { CutAt(log, k); }
    assert InOrder(log, h) ==> Kept(log[..|log|], h);
    assert Kept(log, h) <==> Prompt(log, h) <= Ids(Since(log, h)) by { KeptIs(log, h); }
  }

  lemma KeptIs(log: Log, h: Handle)
    ensures Kept(log, h) <==> Prompt(log, h) <= Ids(Since(log, h))
  {
  }

  lemma NoStrayStep(log: Log, h: Handle)
    requires log != []
    ensures var t := log[..|log| - 1];
            NoStray(log, h) <==> NoStray(t, h) && (Stray(log, h, |t|) ==> |Prompt(t, h)| >= |Since(t, h)|)
  {
    hide Prompt, Since, Ids;
    var t := log[..|log| - 1];
    forall k | 0 <= k < |t| ensures t[..k] == log[..k] && t[k] == log[k] && Stray(t, h, k) == Stray(log, h, k) {
      CutAt(log, k);
    }
  }

  lemma {:induction false} PromptIsReply(log: Log, h: Handle, x: nat)
    requires x in Prompt(log, h)
    ensures exists j :: 0 <= j < |log| && ReplyOn(log[j], h) && log[j].id == x
  {
    var n := |log| - 1;
    var t := log[..n];
    if x in Prompt(t, h) {
      PromptIsReply(t, h, x);
      var j :| 0 <= j < |t| && ReplyOn(t[j], h) && t[j].id == x;
      assert log[j] == t[j];
    }
  }

  lemma AllOwnStep(log: Log, h: Handle)
    requires log != []
    ensures var t, e := log[..|log| - 1], log[|log| - 1];
            var cs, n := Since(t, h), Taken(t, h);
            AllOwn(log, h) <==> AllOwn(t, h) && (ReplyOn(e, h) && n < |cs| ==> cs[n].id == e.id)
  {
    var t, e := log[..|log| - 1], log[|log| - 1];
    assert log == t + [e];
    var g, g' := Given(t, h), Given(log, h);
    if ReplyOn(e, h) && Taken(t, h) < |Since(t, h)| {
      NthReplyNthCall(t, h, e);
      hide Given;
      assert g'[|g|] == Pair(Since(t, h)[Taken(t, h)], e.id, e.packet);
    } else if ReplyOn(e, h) {
      NthReplyNthCall(t, h, e);
    } else {
      assert g' == g;
    }
    hide Given;
    assert forall m :: 0 <= m < |g| ==> g'[m] == g[m];
  }

  /** What the replies so far have come to, when each was given to its own call. */
  predicate Even(log: Log, h: Handle) { Prompt(log, h) == Ids(Since(log, h))[..Taken(log, h)] }

  lemma NotYet(log: Log, h: Handle)
    requires log != [] && ReplyOn(log[|log| - 1], h) && Once(log, h)
    ensures log[|log| - 1].id !in Prompt(log[..|log| - 1], h)
  {
    var t, e := log[..|log| - 1], log[|log| - 1];
    forall x | x in Prompt(t, h) ensures x != e.id {
      PromptIsReply(t, h, x);
      var j :| 0 <= j < |t| && ReplyOn(t[j], h) && t[j].id == x;
      assert log[j] == t[j];
    }
  }

  /** The first `n` of `ids` have their reply, and now comes the one for `x`. */
  lemma ReplyCases(ids: seq<nat>, n: nat, x: nat)
    requires n <= |ids| && x !in ids[..n]
    ensures var prompt := if x in ids then ids[..n] + [x] else ids[..n];
            && ((n < |ids| ==> ids[n] == x) <==> prompt <= ids && (x !in ids ==> n >= |ids|))
            && ((n < |ids| ==> ids[n] == x) ==> prompt == ids[..if n < |ids| then n + 1 else n])
  {
    if x in ids {
      assert (ids[..n] + [x])[n] == x;
    } else if n < |ids| {
      assert ids[n] in ids;
    }
  }

  lemma ReplyCounts(log: Log, h: Handle)
    requires log != [] && ReplyOn(log[|log| - 1], h)
    ensures var t, e := log[..|log| - 1], log[|log| - 1];
            && Since(log, h) == Since(t, h)
            && Prompt(log, h) == (if e.id in Ids(Since(t, h)) then Prompt(t, h) + [e.id] else Prompt(t, h))
            && Taken(log, h) == (if Taken(t, h) < |Since(t, h)| then Taken(t, h) + 1 else Taken(t, h))
            && (Stray(log, h, |t|) <==> e.id !in Ids(Since(t, h)))
  {
    hide Ids;
  }

  lemma ReplyStep(log: Log, h: Handle)
    requires log != [] && ReplyOn(log[|log| - 1], h) && Once(log, h)
    requires var t := log[..|log| - 1]; AllOwn(t, h) && InOrder(t, h) && NoStray(t, h) && Even(t, h)
    ensures AllOwn(log, h) <==> InOrder(log, h) && NoStray(log, h)
    ensures AllOwn(log, h) ==> Even(log, h)
  {
    var t, e := log[..|log| - 1], log[|log| - 1];
    AllOwnStep(log, h);
    InOrderStep(log, h);
    NoStrayStep(log, h);
    NotYet(log, h);
    ReplyCounts(log, h);
    hide AllOwn, InOrder, NoStray, Since, Prompt, Taken, Once, Stray, Given;
    var ids, n := Ids(Since(t, h)), Taken(t, h);
    ReplyCases(ids, n, e.id);
    assert n < |ids| ==> ids[n] == Since(t, h)[n].id;
    hide Ids;
  }

  lemma OtherStep(log: Log, h: Handle)
    requires log != [] && !ReplyOn(log[|log| - 1], h)
    requires var t := log[..|log| - 1]; InOrder(t, h) && Even(t, h)
    ensures Even(log, h) && Prompt(log, h) <= Ids(Since(log, h))
  {
    var t, e := log[..|log| - 1], log[|log| - 1];
    if CallOn(e, h) {
      assert Ids(Since(t, h) + [e.call]) == Ids(Since(t, h)) + [e.call.id];
    }
  }

  lemma {:induction false} OwnExact(log: Log, h: Handle)
    requires Once(log, h)
    ensures AllOwn(log, h) <==> InOrder(log, h) && NoStray(log, h)
    ensures AllOwn(log, h) ==> Even(log, h)
  {
    if log != [] {
      var t := log[..|log| - 1];
      assert forall i :: 0 <= i < |t| ==> t[i] == log[i];
      OwnExact(t, h);
      AllOwnStep(log, h);
      InOrderStep(log, h);
      NoStrayStep(log, h);
      hide AllOwn, InOrder, NoStray, Even, Since, Prompt, Taken, Once;
      if AllOwn(t, h) {
        if ReplyOn(log[|log| - 1], h) { ReplyStep(log, h); } else { OtherStep(log, h); }
      }
    }
  }

  /**
   In every log that answers no request twice, errors and lost connections included: each call settled on
   `h` has the reply to its own request if and only if replies come in the order of the calls made since
   the last failure and no reply to a call that had failed comes while a later call is unanswered.
   */
  lemma OwnIff(log: Log, h: Handle)
    requires Once(log, h)
    ensures AllOwn(log, h) <==> InOrder(log, h) && NoStray(log, h)
  {
    OwnExact(log, h);
  }

  /** A call counts as made since the last failure exactly when no error answer and no cut stands behind it. */
  lemma {:induction false} SinceMeans(log: Log, h: Handle, x: nat)
    ensures x in Ids(Since(log, h)) <==> exists i :: 0 <= i < |log| && Unfailed(log, h, x, i)
  {
    if log != [] {
      var n := |log| - 1;
      var t, e := log[..n], log[n];
      SinceMeans(t, h, x);
      assert CallOn(e, h) ==> Ids(Since(t, h) + [e.call]) == Ids(Since(t, h)) + [e.call.id];
      forall i | 0 <= i < n ensures Unfailed(log, h, x, i) <==> Unfailed(t, h, x, i) && !Fails(e) {
        assert forall f :: i < f < n ==> t[f] == log[f];
        assert t[i] == log[i];
      }
      assert Unfailed(log, h, x, n) <==> CallOn(e, h) && e.call.id == x;
      hide Unfailed, Since;
    }
  }

  /** The call stands at `i`, and nothing after it fails it. */
  predicate Unfailed(log: Log, h: Handle, x: nat, i: nat)
    requires i < |log|
  {
    CallOn(log[i], h) && log[i].call.id == x && forall f :: i < f < |log| ==> !Fails(log[f])
  }

  // ---------------------------------------------------------------- a client that hears no error

  predicate Distinct(s: seq<nat>) { forall i, j :: 0 <= i < j < |s| ==> s[i] != s[j] }

  function Elems(s: seq<nat>): set<nat> { set x | x in s }

  lemma {:induction false} DistinctSet(d: seq<nat>)
    requires Distinct(d)
    ensures |Elems(d)| == |d|
  {
    if d != [] {
      var n := |d| - 1;
      DistinctSet(d[..n]);
      assert Elems(d) == Elems(d[..n]) + {d[n]} && d[n] !in Elems(d[..n]);
    }
  }

  lemma {:induction false} SetSmall(m: seq<nat>)
    ensures |Elems(m)| <= |m|
  {
    if m != [] {
      var n := |m| - 1;
      SetSmall(m[..n]);
      assert Elems(m) == Elems(m[..n]) + {m[n]};
    }
  }

  lemma SetInside(a: set<nat>, b: set<nat>)
    requires a <= b
    ensures |a| <= |b|
  {
    assert b == a + (b - a);
  }

  /** Distinct members of a sequence are no more than the sequence is long. */
  lemma DistinctWithin(d: seq<nat>, m: seq<nat>)
    requires Distinct(d) && forall x :: x in d ==> x in m
    ensures |d| <= |m|
  {
    DistinctSet(d);
    SetSmall(m);
    SetInside(Elems(d), Elems(m));
  }

  /** No error answer, no cut. */
  predicate Calm(log: Log) { forall i :: 0 <= i < |log| ==> !Fails(log[i]) }

  lemma CausalPrefix(log: Log)
    requires Causal(log) && log != []
    ensures Causal(log[..|log| - 1])
  {
    var t := log[..|log| - 1];
    forall j | 0 <= j < |t| && t[j].Replied?
      ensures exists i :: 0 <= i < j && CallOn(t[i], t[j].h) && t[i].call.id == t[j].id
    {
      assert log[j] == t[j];
      var i :| 0 <= i < j && CallOn(log[i], log[j].h) && log[i].call.id == log[j].id;
      assert t[i] == log[i];
    }
  }

  lemma {:induction false} CallIn(log: Log, h: Handle, i: nat)
    requires i < |log| && CallOn(log[i], h)
    ensures log[i].call.id in CallIds(log, h)
  {
    var n := |log| - 1;
    if i < n { CallIn(log[..n], h, i); }
  }

  /** The call of the last reply stands before it. */
  lemma LastCalled(log: Log, h: Handle)
    requires Causal(log) && log != [] && ReplyOn(log[|log| - 1], h)
    ensures log[|log| - 1].id in CallIds(log[..|log| - 1], h)
  {
    var n := |log| - 1;
    var t := log[..n];
    var i :| 0 <= i < n && CallOn(log[i], h) && log[i].call.id == log[n].id;
    assert t[i] == log[i];
    CallIn(t, h, i);
  }

  lemma {:induction false} ReplyIn(log: Log, h: Handle, x: nat)
    requires x in ReplyIds(log, h)
    ensures exists j :: 0 <= j < |log| && ReplyOn(log[j], h) && log[j].id == x
  {
    var n := |log| - 1;
    var t := log[..n];
    if x in ReplyIds(t, h) {
      ReplyIn(t, h, x);
      var j :| 0 <= j < |t| && ReplyOn(t[j], h) && t[j].id == x;
      assert log[j] == t[j];
    }
  }

  lemma {:induction false} RepliesDistinct(log: Log, h: Handle)
    requires Once(log, h)
    ensures Distinct(ReplyIds(log, h))
  {
    if log != [] {
      var t, e := log[..|log| - 1], log[|log| - 1];
      assert forall i :: 0 <= i < |t| ==> t[i] == log[i];
      RepliesDistinct(t, h);
      if ReplyOn(e, h) {
        forall x | x in ReplyIds(t, h) ensures x != e.id {
          ReplyIn(t, h, x);
          var j :| 0 <= j < |t| && ReplyOn(t[j], h) && t[j].id == x;
          assert log[j] == t[j];
        }
        var ids := ReplyIds(t, h);
        assert forall i :: 0 <= i < |ids| ==> ids[i] in ids;
      }
    }
  }

  lemma {:induction false} RepliesAreCalls(log: Log, h: Handle, x: nat)
    requires Causal(log) && x in ReplyIds(log, h)
    ensures x in CallIds(log, h)
  {
    var n := |log| - 1;
    CausalPrefix(log);
    if x in ReplyIds(log[..n], h) { RepliesAreCalls(log[..n], h, x); } else { LastCalled(log, h); }
  }

  lemma NoMoreReplies(log: Log, h: Handle)
    requires Causal(log) && Once(log, h)
    ensures |ReplyIds(log, h)| <= |CallIds(log, h)|
  {
    RepliesDistinct(log, h);
    forall x | x in ReplyIds(log, h) ensures x in CallIds(log, h) { RepliesAreCalls(log, h, x); }
    DistinctWithin(ReplyIds(log, h), CallIds(log, h));
  }

  lemma CalmStep(log: Log, h: Handle)
    requires log != [] && !Fails(log[|log| - 1])
    requires var t := log[..|log| - 1]; Ids(Since(t, h)) == CallIds(t, h) && Prompt(t, h) == ReplyIds(t, h)
    requires ReplyOn(log[|log| - 1], h) ==> log[|log| - 1].id in CallIds(log[..|log| - 1], h)
    ensures Ids(Since(log, h)) == CallIds(log, h) && Prompt(log, h) == ReplyIds(log, h) && !Stray(log, h, |log| - 1)
  {
    var t, e := log[..|log| - 1], log[|log| - 1];
    if CallOn(e, h) { assert Ids(Since(t, h) + [e.call]) == Ids(Since(t, h)) + [e.call.id]; }
    hide Ids;
  }

  lemma PrefixStep(log: Log, h: Handle)
    requires log != [] && ReplyIds(log, h) <= CallIds(log, h)
    requires |ReplyIds(log[..|log| - 1], h)| <= |CallIds(log[..|log| - 1], h)|
    ensures ReplyIds(log[..|log| - 1], h) <= CallIds(log[..|log| - 1], h)
  {
    var t := log[..|log| - 1];
    assert ReplyIds(t, h) <= ReplyIds(log, h) && CallIds(t, h) <= CallIds(log, h);
    hide ReplyIds, CallIds;
  }

  lemma CalmPrefix(log: Log, h: Handle)
    requires log != [] && Causal(log) && Once(log, h) && Calm(log)
    ensures Causal(log[..|log| - 1]) && Once(log[..|log| - 1], h) && Calm(log[..|log| - 1])
    ensures !Fails(log[|log| - 1])
  {
    CausalPrefix(log);
    hide Causal;
    var t := log[..|log| - 1];
    assert forall i :: 0 <= i < |t| ==> t[i] == log[i];
  }

  /** Without failures nothing is stray, and all calls and replies count. */
  lemma {:induction false} CalmCounts(log: Log, h: Handle)
    requires Causal(log) && Once(log, h) && Calm(log)
    ensures Ids(Since(log, h)) == CallIds(log, h) && Prompt(log, h) == ReplyIds(log, h) && NoStray(log, h)
    ensures InOrder(log, h) <==> ReplyIds(log, h) <= CallIds(log, h)
  {
    if log == [] {
      assert log[..0] == log;
    } else {
      var t := log[..|log| - 1];
      hide *;
      CalmPrefix(log, h);
      CalmCounts(t, h);
      NoMoreReplies(t, h);
      InOrderStep(log, h);
      NoStrayStep(log, h);
      if ReplyOn(log[|log| - 1], h) { LastCalled(log, h); }
      CalmStep(log, h);
      if ReplyIds(log, h) <= CallIds(log, h) { PrefixStep(log, h); }
    }
  }

  /** So a client that hears no error has its own replies exactly when they come in the order of its calls. */
  lemma OwnIffCallOrder(log: Log, h: Handle)
    requires Causal(log) && Once(log, h) && Calm(log)
    ensures AllOwn(log, h) <==> ReplyIds(log, h) <= CallIds(log, h)
  {
    CalmCounts(log, h);
    OwnIff(log, h);
  }
}
