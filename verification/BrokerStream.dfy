/**
 From the broker's answers to a Node client's calls through the byte stream between them: the client's
 connection takes the answer frames, its socket carries them in chunks cut anywhere, and the client
 makes calls in between.
 */
module BrokerStream {
  import opened Bytes
  import opened Protocol
  import opened Dispatch
  import opened DispatchInv
  import opened DispatchRuns
  import opened DispatchMatching
  import opened BrokerCalls
  import Framing
  import WriteQueue
  import Layout
  import Wire
  import NodeRelay
  import NC = NodeClient
  import NM = NodeMatching

  // ---------------------------------------------------------------- answers as frames

  function ErrorType(f: Frame): nat
    requires !f.ReturnData?
  {
    if f == Error then PDT_ERROR else if f == RateLimit then PDT_RATELIMIT else PDT_CANT_DO
  }

  /** The frame the server writes. */
  function FrameOf(f: Frame): Bytes
  {
    if f.ReturnData? then Packet(f) else Layout.FrameBytes(CONN_TYPE_SERVER, ErrorType(f), [])
  }

  /** The result's packed length fits its 32-bit field. */
  predicate Fits32(f: Frame)
  {
    f.ReturnData? ==> |Wire.ServerReturnBytes(Wire.ServerReturn(f.handle, f.params, f.ret))| < TWO32
  }

  predicate AllFit32(written: seq<Answer>) { forall n :: 0 <= n < |written| ==> Fits32(written[n].frame) }

  predicate Named(f: Frame) { f.ReturnData? ==> f.handle != [] }

  ghost predicate AllGood(written: seq<Answer>)
  {
    forall n :: 0 <= n < |written| ==> Fits32(written[n].frame) && Named(written[n].frame)
  }

  function FramesOf(written: seq<Answer>): (r: seq<Bytes>)
    ensures |r| == |written|
  {
    seq(|written|, i requires 0 <= i < |written| => FrameOf(written[i].frame))
  }

  function EntryOf(a: Answer): NM.Entry
  {
    if a.frame.ReturnData? then NM.Replied(a.frame.handle, a.req, Packet(a.frame)) else NM.Erred(a.req)
  }

  function EntriesOf(written: seq<Answer>): (r: seq<NM.Entry>)
    ensures |r| == |written|
  {
    seq(|written|, i requires 0 <= i < |written| => EntryOf(written[i]))
  }

  lemma FrameIsFrame(f: Frame)
    requires Fits32(f)
    ensures Framing.IsFrame(FrameOf(f))
  {
    var content := if f.ReturnData? then Wire.ServerReturnBytes(Wire.ServerReturn(f.handle, f.params, f.ret)) else [];
    var dataType := if f.ReturnData? then PDT_S_RETURN_DATA else ErrorType(f);
    assert FrameOf(f) == Layout.FrameBytes(CONN_TYPE_SERVER, dataType, content);
    Layout.FrameParts(CONN_TYPE_SERVER, dataType, content);
    hide Layout.FrameBytes, Wire.ServerReturnBytes;
  }

  /** What the client does with an answer's frame is what its log entry says. */
  lemma FrameActs(c: NC.Calls, a: Answer)
    requires Fits32(a.frame) && Named(a.frame)
    ensures NC.Classify(FrameOf(a.frame)) != NC.Throw
    ensures NC.Act(c, NC.Classify(FrameOf(a.frame))) == NM.PlayOne(c, EntryOf(a))
  {
    if a.frame.ReturnData? {
      NodeRelay.ResultIsReply(Wire.ServerReturn(a.frame.handle, a.frame.params, a.frame.ret));
      hide NC.Classify, NodeRelay.ReturnFrame;
    } else {
      NodeRelay.ServerFrame(ErrorType(a.frame), []);
      hide Layout.FrameBytes;
      assert NC.Classify(FrameOf(a.frame)) == NC.Fail;
    }
  }

  lemma FirstOf(written: seq<Answer>)
    requires written != []
    ensures FramesOf(written) == [FrameOf(written[0].frame)] + FramesOf(written[1..])
    ensures EntriesOf(written) == [EntryOf(written[0])] + EntriesOf(written[1..])
  {
    hide FrameOf, EntryOf;
  }

  lemma ActFirst(c: NC.Calls, f: Bytes, fs: seq<Bytes>)
    requires NC.Classify(f) != NC.Throw
    ensures NC.ActAll(c, [f] + fs) == NC.ActAll(NC.Act(c, NC.Classify(f)), fs)
  {
    hide NC.Classify, NC.Act;
    assert ([f] + fs)[1..] == fs;
  }

  lemma NoFrames(c: NC.Calls, log: NM.Log)
    ensures FramesOf([]) == [] && EntriesOf([]) == [] && NC.ActAll(c, []) == c && log + [] == log
  {
  }

  lemma GoodFirst(written: seq<Answer>)
    requires AllGood(written) && written != []
    ensures AllGood(written[1..]) && Fits32(written[0].frame) && Named(written[0].frame)
  {
    hide Fits32, Named;
  }

  lemma GoodPart(written: seq<Answer>, i: nat, j: nat)
    requires AllGood(written) && i <= j <= |written|
    ensures AllGood(written[i..j])
  {
    hide Fits32, Named;
  }

  /** Acting on the frames of some answers plays their log entries. */
  lemma {:induction false} FramesPlay(log: NM.Log, written: seq<Answer>)
    requires AllGood(written)
    ensures NC.ActAll(NM.Play(log), FramesOf(written)) == NM.Play(log + EntriesOf(written))
    decreases |written|
  {
    hide *;
    if written == [] {
      NoFrames(NM.Play(log), log);
    } else {
      var a, rest := written[0], written[1..];
      GoodFirst(written);
      FirstOf(written);
      FramesPlay(log + [EntryOf(a)], rest);
      FrameActs(NM.Play(log), a);
      NM.PlayPush(log, EntryOf(a));
      ActFirst(NM.Play(log), FrameOf(a.frame), FramesOf(rest));
      assert log + ([EntryOf(a)] + EntriesOf(rest)) == log + [EntryOf(a)] + EntriesOf(rest);
    }
  }

  // ---------------------------------------------------------------- a client at work

  /** The client makes a call, or a chunk of bytes reaches it. */
  datatype Move = Makes(h: Bytes, call: NC.Call) | Gets(chunk: Bytes)

  function Chunks(moves: seq<Move>): seq<Bytes>
  {
    if moves == [] then [] else
      var m := moves[|moves| - 1];
      Chunks(moves[..|moves| - 1]) + if m.Gets? then [m.chunk] else []
  }

  /** The packets cut out of the bytes so far. */
  function PacketsIn(moves: seq<Move>): seq<Bytes> { Framing.Feed(Chunks(moves)).0 }

  function Buffered(moves: seq<Move>): Bytes { Framing.Feed(Chunks(moves)).1 }

  /** The events of the client. */
  function EventsOf(moves: seq<Move>): seq<NC.Event>
  {
    if moves == [] then [] else
      var t, m := moves[..|moves| - 1], moves[|moves| - 1];
      EventsOf(t) + [if m.Gets? then NC.Data(Framing.Packets(Buffered(t) + m.chunk)) else NC.Do(m.h, m.call)]
  }

  /** The log they come to, when the packets are the frames of these answers. */
  function LogOf(moves: seq<Move>, written: seq<Answer>): NM.Log
    requires |PacketsIn(moves)| <= |written|
  {
    if moves == [] then [] else
      var t, m := moves[..|moves| - 1], moves[|moves| - 1];
      PacketsGrow(moves);
      LogOf(t, written) + if m.Gets? then EntriesOf(written[|PacketsIn(t)|..|PacketsIn(moves)|])
                          else [NM.Called(m.h, m.call)]
  }

  lemma PacketsGrow(moves: seq<Move>)
    requires moves != []
    ensures var t, m := moves[..|moves| - 1], moves[|moves| - 1];
            PacketsIn(moves) == PacketsIn(t) + if m.Gets? then Framing.Packets(Buffered(t) + m.chunk) else []
  {
    hide Framing.Packets, Framing.Leftover;
    var t, m := moves[..|moves| - 1], moves[|moves| - 1];
    if m.Gets? {
      var chunks := Chunks(moves);
      assert chunks[..|chunks| - 1] == Chunks(t) && chunks[|chunks| - 1] == m.chunk;
    } else {
      assert Chunks(moves) == Chunks(t);
      assert PacketsIn(t) + [] == PacketsIn(t);
    }
  }

  lemma FramesBetween(written: seq<Answer>, a: seq<Bytes>, b: seq<Bytes>)
    requires a + b <= FramesOf(written)
    ensures b == FramesOf(written[|a|..|a + b|])
  {
    hide FrameOf;
    assert forall i :: 0 <= i < |b| ==> (a + b)[|a| + i] == b[i];
  }

  lemma LastOf(written: seq<Answer>)
    requires written != []
    ensures var n := |written| - 1; EntriesOf(written) == EntriesOf(written[..n]) + [EntryOf(written[n])]
    ensures IsAnswer(EntryOf(written[|written| - 1]))
  {
  }

  lemma {:induction false} HeardEntries(log: NM.Log, written: seq<Answer>)
    ensures HeardOf(log + EntriesOf(written)) == HeardOf(log) + EntriesOf(written)
    decreases |written|
  {
    hide *;
    if written == [] {
      NoFrames(NM.Play(log), log);
      assert HeardOf(log) + [] == HeardOf(log);
    } else {
      var n := |written| - 1;
      var es, e := EntriesOf(written[..n]), EntryOf(written[n]);
      LastOf(written);
      HeardEntries(log, written[..n]);
      HeardPush(log + es, e);
      assert log + (es + [e]) == log + es + [e];
      assert HeardOf(log) + (es + [e]) == HeardOf(log) + es + [e];
    }
  }

  lemma AfterPush(es: seq<NC.Event>, e: NC.Event)
    ensures NC.After(es + [e]) == NC.Next(NC.After(es), e)
  {
    assert (es + [e])[..|es|] == es;
  }

  ghost predicate Plays(moves: seq<Move>, written: seq<Answer>)
  {
    && |PacketsIn(moves)| <= |written| && NC.After(EventsOf(moves)) == NM.Play(LogOf(moves, written))
    && HeardOf(LogOf(moves, written)) == EntriesOf(written[..|PacketsIn(moves)|])
  }

  lemma EntriesJoin(written: seq<Answer>, i: nat, j: nat)
    requires i <= j <= |written|
    ensures EntriesOf(written[..i]) + EntriesOf(written[i..j]) == EntriesOf(written[..j])
  {
    hide EntryOf;
  }

  lemma LogMakes(moves: seq<Move>, written: seq<Answer>)
    requires moves != [] && moves[|moves| - 1].Makes? && |PacketsIn(moves[..|moves| - 1])| <= |written|
    ensures var t, m := moves[..|moves| - 1], moves[|moves| - 1];
            && PacketsIn(moves) == PacketsIn(t) && EventsOf(moves) == EventsOf(t) + [NC.Do(m.h, m.call)]
            && LogOf(moves, written) == LogOf(t, written) + [NM.Called(m.h, m.call)]
  {
    PacketsGrow(moves);
    hide PacketsIn;
    assert PacketsIn(moves) == PacketsIn(moves[..|moves| - 1]);
  }

  lemma PlaysThen(moves: seq<Move>, written: seq<Answer>)
    requires Plays(moves, written)
    ensures |PacketsIn(moves)| <= |written| && NC.After(EventsOf(moves)) == NM.Play(LogOf(moves, written))
    ensures HeardOf(LogOf(moves, written)) == EntriesOf(written[..|PacketsIn(moves)|])
  {
  }

  lemma DoPlays(c: NC.Calls, h: Bytes, call: NC.Call)
    ensures NC.Next(c, NC.Do(h, call)) == NM.PlayOne(c, NM.Called(h, call)) && !IsAnswer(NM.Called(h, call))
  {
  }

  lemma MakesPlays(moves: seq<Move>, written: seq<Answer>)
    requires moves != [] && moves[|moves| - 1].Makes? && Plays(moves[..|moves| - 1], written)
    ensures Plays(moves, written)
  {
    hide *;
    var t, m := moves[..|moves| - 1], moves[|moves| - 1];
    PlaysThen(t, written);
    LogMakes(moves, written);
    var log := LogOf(t, written);
    AfterPush(EventsOf(t), NC.Do(m.h, m.call));
    DoPlays(NM.Play(log), m.h, m.call);
    NM.PlayPush(log, NM.Called(m.h, m.call));
    HeardPush(log, NM.Called(m.h, m.call));
    PlaysIf(moves, written);
  }

  lemma LogGets(moves: seq<Move>, written: seq<Answer>)
    requires moves != [] && moves[|moves| - 1].Gets? && |PacketsIn(moves)| <= |written|
    ensures var t, m := moves[..|moves| - 1], moves[|moves| - 1];
            var ps := Framing.Packets(Buffered(t) + m.chunk);
            && PacketsIn(moves) == PacketsIn(t) + ps && EventsOf(moves) == EventsOf(t) + [NC.Data(ps)]
            && LogOf(moves, written) == LogOf(t, written) + EntriesOf(written[|PacketsIn(t)|..|PacketsIn(moves)|])
  {
    PacketsGrow(moves);
    hide PacketsIn, Framing.Packets, EntriesOf;
  }

  lemma DataActs(c: NC.Calls, ps: seq<Bytes>)
    ensures NC.Next(c, NC.Data(ps)) == NC.ActAll(c, ps)
  {
  }

  lemma GetsPlays(moves: seq<Move>, written: seq<Answer>)
    requires moves != [] && moves[|moves| - 1].Gets? && Plays(moves[..|moves| - 1], written)
    requires PacketsIn(moves) <= FramesOf(written) && AllGood(written)
    ensures Plays(moves, written)
  {
    hide *;
    var t, m := moves[..|moves| - 1], moves[|moves| - 1];
    PlaysThen(t, written);
    LogGets(moves, written);
    var log, ps := LogOf(t, written), Framing.Packets(Buffered(t) + m.chunk);
    var i, j := |PacketsIn(t)|, |PacketsIn(moves)|;
    GoodPart(written, i, j);
    FramesBetween(written, PacketsIn(t), ps);
    FramesPlay(log, written[i..j]);
    HeardEntries(log, written[i..j]);
    AfterPush(EventsOf(t), NC.Data(ps));
    DataActs(NM.Play(log), ps);
    EntriesJoin(written, i, j);
    PlaysIf(moves, written);
  }

  lemma PlaysIf(moves: seq<Move>, written: seq<Answer>)
    requires |PacketsIn(moves)| <= |written| && NC.After(EventsOf(moves)) == NM.Play(LogOf(moves, written))
    requires HeardOf(LogOf(moves, written)) == EntriesOf(written[..|PacketsIn(moves)|])
    ensures Plays(moves, written)
  {
  }

  /** The client does what its log says, and the log hears the first answers in order. */
  lemma {:induction false} MovesPlay(moves: seq<Move>, written: seq<Answer>)
    requires PacketsIn(moves) <= FramesOf(written) && AllGood(written)
    ensures Plays(moves, written)
  {
    if moves == [] {
      assert PacketsIn(moves) == [];
    } else {
      PacketsGrow(moves);
      var t := moves[..|moves| - 1];
      hide *;
      MovesPlay(t, written);
      if moves[|moves| - 1].Gets? { GetsPlays(moves, written); } else { MakesPlays(moves, written); }
    }
  }

  /** Whatever prefix of the frames has come, in whatever chunks, the packets are the first whole frames. */
  lemma PacketsAreFrames(moves: seq<Move>, written: seq<Answer>)
    requires Concat(Chunks(moves)) <= Concat(FramesOf(written)) && AllFit32(written)
    ensures PacketsIn(moves) <= FramesOf(written)
  {
    var fs := FramesOf(written);
    forall n | 0 <= n < |fs| ensures Framing.IsFrame(fs[n]) { FrameIsFrame(written[n].frame); }
    hide FramesOf, Concat, Chunks, Framing.Packets, Framing.Leftover, Framing.IsFrame;
    Framing.ChunksDoNotMatter(Chunks(moves));
    Framing.PrefixYieldsWholeFrames(fs, Concat(Chunks(moves)));
  }

  // ---------------------------------------------------------------- no answer without a handle

  predicate InWork(s: State, id: Id) { id in s.pool || id in s.tasks || id in s.jobs }

  predicate Full(s: State, id: Id) { id in s.requests && !Empty(s.requests[id]) }

  /** What is dispatched was accepted, so it has a handle and parameters. */
  ghost predicate Filled(s: State) { forall id :: InWork(s, id) ==> Full(s, id) }

  lemma EntersFront(s: State, e: Event, id: Id)
    requires Enabled(s, e) && Front(e) && InWork(Apply(s, e), id)
    ensures InWork(s, id) || (e.Accept? && e.id == id && !Empty(e.req))
  {
    hide Get, Add, Say, KeyOf, KeyOfResult, Completes, Empty;
    assert s.pool != [] ==> forall x :: x in s.pool[1..] ==> x in s.pool;
  }

  lemma EntersElse(s: State, e: Event, id: Id)
    requires Enabled(s, e) && !Front(e) && InWork(Apply(s, e), id)
    ensures InWork(s, id)
  {
    hide Get, Add, Say, KeyOf, KeyOfResult, Completes;
  }

  lemma FullKept(s: State, e: Event, id: Id)
    requires Enabled(s, e) && (Full(s, id) || (e.Accept? && e.id == id && !Empty(e.req)))
    ensures Full(Apply(s, e), id)
  {
    hide Get, Add, Say, KeyOf, KeyOfResult, Completes, Empty;
  }

  lemma FilledKept(s: State, e: Event)
    requires Filled(s) && Enabled(s, e)
    ensures Filled(Apply(s, e))
  {
    hide Enabled, Apply, InWork, Full, Front;
    forall id | InWork(Apply(s, e), id) ensures Full(Apply(s, e), id) {
      if Front(e) { EntersFront(s, e, id); } else { EntersElse(s, e, id); }
      FullKept(s, e, id);
    }
  }

  lemma {:induction false} RunFilled(ss: seq<State>, es: seq<Event>, i: nat)
    requires IsRun(ss, es) && i < |ss|
    ensures Filled(ss[i])
  {
    if i > 0 {
      RunStep(ss, es, i - 1);
      RunFilled(ss, es, i - 1);
      hide IsRun, Filled, Enabled, Apply;
      FilledKept(ss[i - 1], es[i - 1]);
    }
  }

  lemma AnswerNamed(s: State, a: Answer)
    requires Inv(s) && Filled(s) && a in s.answers
    ensures Named(a.frame)
  {
    hide Placed, JobsMatch;
    var m :| 0 <= m < |s.answers| && s.answers[m] == a;
    assert GoodAnswer(s.requests, s.jobs, s.place, s.answers[m]);
    assert a.frame.ReturnData? ==> InWork(s, a.req);
  }

  lemma AnswersNamed(ss: seq<State>, es: seq<Event>, i: nat, c: nat)
    requires IsRun(ss, es) && i < |ss|
    ensures var written := AnswersTo(ss[i].answers, ss[i].requests, c);
            forall n :: 0 <= n < |written| ==> Named(written[n].frame)
  {
    hide *;
    RunFilled(ss, es, i);
    RunInv(ss, es, i);
    var s := ss[i];
    var written := AnswersTo(s.answers, s.requests, c);
    forall n | 0 <= n < |written| ensures Named(written[n].frame) {
      AnswersAre(s.answers, s.requests, c, n);
      AnswerNamed(s, written[n]);
    }
  }

  // ---------------------------------------------------------------- main results

  /** The client's connection has taken the answers; its socket's bytes reach the client, some still on the way. */
  ghost predicate Carried(moves: seq<Move>, cs: seq<WriteQueue.Conn>, wes: seq<WriteQueue.Event>, max: nat, j: nat,
                          written: seq<Answer>)
  {
    && WriteQueue.IsRun(cs, wes, max) && j < |cs| && cs[j].accepted == FramesOf(written)
    && Concat(Chunks(moves)) <= cs[j].socket
  }

  lemma AllGoodIf(written: seq<Answer>)
    requires AllFit32(written) && forall n :: 0 <= n < |written| ==> Named(written[n].frame)
    ensures AllGood(written)
  {
    hide Fits32, Named;
  }

  lemma EntriesHeard(written: seq<Answer>, n: nat)
    requires n <= |written|
    ensures AllHeard(EntriesOf(written[..n]), written)
  {
    hide Packet;
  }

  lemma CarriedPackets(moves: seq<Move>, cs: seq<WriteQueue.Conn>, wes: seq<WriteQueue.Event>, max: nat, j: nat,
                       written: seq<Answer>)
    requires Carried(moves, cs, wes, max, j, written) && AllFit32(written)
    ensures PacketsIn(moves) <= FramesOf(written)
  {
    WriteQueue.SocketPrefix(cs, wes, max, j);
    hide WriteQueue.IsRun, Concat, Chunks, FramesOf, PacketsIn;
    PacketsAreFrames(moves, written);
  }

  /**
   In every run of the broker and of the client's connection, however its bytes are cut and whenever the
   client calls: the client's state is that of a log in which it has heard, in order, the first answers
   written to it.
   */
  lemma HearsInOrder(ss: seq<State>, es: seq<Event>, i: nat, c: nat, moves: seq<Move>,
                     cs: seq<WriteQueue.Conn>, wes: seq<WriteQueue.Event>, max: nat, j: nat)
    requires IsRun(ss, es) && i < |ss|
    requires var written := AnswersTo(ss[i].answers, ss[i].requests, c);
             AllFit32(written) && Carried(moves, cs, wes, max, j, written)
    ensures var written := AnswersTo(ss[i].answers, ss[i].requests, c);
            && |PacketsIn(moves)| <= |written| && NC.After(EventsOf(moves)) == NM.Play(LogOf(moves, written))
            && AllHeard(HeardOf(LogOf(moves, written)), written)
  {
    var written := AnswersTo(ss[i].answers, ss[i].requests, c);
    hide *;
    AnswersNamed(ss, es, i, c);
    AllGoodIf(written);
    CarriedPackets(moves, cs, wes, max, j, written);
    MovesPlay(moves, written);
    PlaysThen(moves, written);
    EntriesHeard(written, |PacketsIn(moves)|);
  }

  /**
   So in an ordered run every call that the client has settled on a handle has exactly what it is owed,
   provided that answers come in the order of the calls since the last failure and without strays.
   */
  lemma StreamCallsGetOwnRet(ss: seq<State>, es: seq<Event>, i: nat, c: nat, h: Bytes, moves: seq<Move>,
                             cs: seq<WriteQueue.Conn>, wes: seq<WriteQueue.Event>, max: nat, j: nat,
                             compute: (ChanKey, Bytes) -> Bytes)
    requires OrderedRun(ss, es, compute) && i < |ss|
    requires var written := AnswersTo(ss[i].answers, ss[i].requests, c);
             && AllFit32(written) && Carried(moves, cs, wes, max, j, written) && |PacketsIn(moves)| <= |written|
             && var log := LogOf(moves, written);
                && NM.Causal(log) && (forall x :: RequestIds(es[..i], c, x) <= NM.CallIds(log, x))
                && NM.InOrder(log, h) && NM.NoStray(log, h)
    ensures var gone := NC.Get(NC.After(EventsOf(moves)).gone, h);
            forall n :: 0 <= n < |gone| ==> GetsOwed(ss[i], gone[n], compute)
  {
    HearsInOrder(ss, es, i, c, moves, cs, wes, max, j);
    var written := AnswersTo(ss[i].answers, ss[i].requests, c);
    var log := LogOf(moves, written);
    assert Fits(log, ss[i], es[..i], c);
    hide Carried, OrderedRun, IsRun, NC.After, EventsOf, NM.Play, LogOf, HeardOf, PacketsIn, AnswersTo, Fits;
    hide GetsOwed;
    var gone := NC.Get(NM.Play(log).gone, h);
    forall n | 0 <= n < |gone| ensures GetsOwed(ss[i], gone[n], compute) {
      OrderedCallsGetOwnRet(ss, es, i, log, c, h, n, compute);
    }
  }
}
