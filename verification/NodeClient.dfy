/**
 The Node client: pending calls in one FIFO per handle, settled by replies that carry only the
 handle, with packets cut out of the socket's byte stream.
 */
module NodeClient {
  import opened Bytes
  import opened Framing
  import opened Protocol

  type Handle = Bytes

  datatype Call = Call(id: nat, isPromise: bool)

  /**
   A settled call is given the reply's packet; a failed promise is rejected; a failed callback is dropped and
   never called.
   */
  datatype Gone = Settled(call: Call, packet: Bytes) | Rejected(call: Call) | Dropped(call: Call)

  function Failed(call: Call): Gone { if call.isPromise then Rejected(call) else Dropped(call) }

  type Queues = map<Handle, seq<Call>>

  /** `made` and `gone` record, per handle, the calls enqueued and how calls left the queue. */
  datatype Calls = Calls(pending: Queues, made: map<Handle, seq<Call>>, gone: map<Handle, seq<Gone>>)

  function Get<V>(m: map<Handle, seq<V>>, h: Handle): seq<V> { if h in m then m[h] else [] }

  function Enqueue(c: Calls, h: Handle, call: Call): Calls
  {
    c.(pending := c.pending[h := Get(c.pending, h) + [call]], made := c.made[h := Get(c.made, h) + [call]])
  }

  /** A reply settles the oldest call of its handle; the queue is deleted when it empties. */
  function Settle(c: Calls, h: Handle, packet: Bytes): Calls
  {
    if Get(c.pending, h) == [] then c
    else
      var q := c.pending[h];
      c.(pending := if |q| == 1 then c.pending - {h} else c.pending[h := q[1..]],
         gone := c.gone[h := Get(c.gone, h) + [Settled(q[0], packet)]])
  }

  function Failures(q: seq<Call>): (r: seq<Gone>)
    ensures |r| == |q|
  {
    seq(|q|, i requires 0 <= i < |q| => Failed(q[i]))
  }

  /** An error answer or a lost connection fails every pending call. */
  function FailAll(c: Calls): Calls
  {
    c.(pending := map[],
       gone := map h | h in c.gone.Keys + c.pending.Keys :: Get(c.gone, h) + Failures(Get(c.pending, h)))
  }

  function CallsOf(gs: seq<Gone>): (r: seq<Call>)
    ensures |r| == |gs|
  {
    seq(|gs|, i requires 0 <= i < |gs| => gs[i].call)
  }

  /** Per handle, the calls made are those that left, in order, and then those pending, in order. */
  ghost predicate Consistent(c: Calls)
  {
    && (forall h :: Get(c.made, h) == CallsOf(Get(c.gone, h)) + Get(c.pending, h))
    && (forall h :: h in c.pending ==> c.pending[h] != [])
  }

  lemma EnqueueKeeps(c: Calls, h: Handle, call: Call)
    requires Consistent(c)
    ensures Consistent(Enqueue(c, h, call))
  {
    var c' := Enqueue(c, h, call);
    forall k ensures Get(c'.made, k) == CallsOf(Get(c'.gone, k)) + Get(c'.pending, k) {
      assert Get(c.made, k) == CallsOf(Get(c.gone, k)) + Get(c.pending, k);
    }
  }

  lemma SettleKeeps(c: Calls, h: Handle, packet: Bytes)
    requires Consistent(c)
    ensures Consistent(Settle(c, h, packet))
  {
    var c' := Settle(c, h, packet);
    if Get(c.pending, h) != [] {
      forall k ensures Get(c'.made, k) == CallsOf(Get(c'.gone, k)) + Get(c'.pending, k) {
        assert Get(c.made, k) == CallsOf(Get(c.gone, k)) + Get(c.pending, k);
        if k == h {
          var q, g := c.pending[h], Get(c.gone, h);
          assert CallsOf(g + [Settled(q[0], packet)]) == CallsOf(g) + [q[0]];
          assert q == [q[0]] + q[1..];
        }
      }
    }
  }

  lemma FailAllKeeps(c: Calls)
    requires Consistent(c)
    ensures Consistent(FailAll(c))
  {
    var c' := FailAll(c);
    forall k ensures Get(c'.made, k) == CallsOf(Get(c'.gone, k)) + Get(c'.pending, k) {
      assert Get(c.made, k) == CallsOf(Get(c.gone, k)) + Get(c.pending, k);
      var g, q := Get(c.gone, k), Get(c.pending, k);
      assert CallsOf(g + Failures(q)) == CallsOf(g) + q;
      if k !in c.gone.Keys + c.pending.Keys { assert Get(c'.gone, k) == [] && g + Failures(q) == []; }
    }
  }

  // ---------------------------------------------------------------- packets

  datatype Action = Ignore | Fail | Reply(h: Handle, packet: Bytes) | Throw

  function Clamp(n: nat, max: nat): nat { if n <= max then n else max }

  /** `decodePack` and `_processResp`: reading a field past the end of the packet throws. */
  function Classify(p: Bytes): Action
  {
    if |p| < HEADER_SIZE || FromBE(p[0..4]) != CONN_TYPE_SERVER then Ignore
    else
      var dt := FromBE(p[4..8]);
      if dt == PDT_ERROR || dt == PDT_CANT_DO || dt == PDT_RATELIMIT then Fail
      else if dt != PDT_S_RETURN_DATA then Ignore
      else if |p| < HEADER_SIZE + 12 then Throw
      else
        var h := p[24..Clamp(24 + FromBE(p[12..16]), |p|)];
        if h == [] then Ignore else Reply(h, p)
  }

  /** A whole header of a packet that the server (connection type 1) sent, with this data type. */
  predicate FromServer(p: Bytes, dataType: nat) { |p| >= 12 && FromBE(p[0..4]) == 1 && FromBE(p[4..8]) == dataType }

  /**
   A packet fails the pending calls exactly when the server sends type 2 (error), 4 (can't do) or 18 (rate
   limit). It is a reply exactly when the server sends type 11, all three length words are there and the
   handle, as far as it is there, is not empty. It throws exactly when one of these words is missing.
   */
  lemma ClassifyMeans(p: Bytes, h: Handle, q: Bytes)
    ensures Classify(p) == Fail <==> FromServer(p, 2) || FromServer(p, 4) || FromServer(p, 18)
    ensures Classify(p) == Throw <==> FromServer(p, 11) && |p| < 24
    ensures Classify(p) == Reply(h, q) <==>
            && FromServer(p, 11) && |p| >= 24 && q == p && h != []
            && h == if 24 + FromBE(p[12..16]) <= |p| then p[24..24 + FromBE(p[12..16])] else p[24..]
  {
    hide FromBE;
  }

  function Act(c: Calls, a: Action): Calls
  {
    match a
    case Reply(h, packet) => Settle(c, h, packet)
    case Fail => FailAll(c)
    case _ => c
  }

  lemma ActKeeps(c: Calls, a: Action)
    requires Consistent(c)
    ensures Consistent(Act(c, a))
  {
    match a
    case Reply(h, packet) => SettleKeeps(c, h, packet);
    case Fail => FailAllKeeps(c);
    case _ =>
  }

  /** The packets of one chunk are acted on in order, up to the first that throws. */
  function ActAll(c: Calls, ps: seq<Bytes>): Calls
    decreases |ps|
  {
    if ps == [] || Classify(ps[0]) == Throw then c else ActAll(Act(c, Classify(ps[0])), ps[1..])
  }

  /** Of a chunk, the packets in front of the first that throws are acted on, in order, and no other. */
  lemma {:induction false} ThrowStops(c: Calls, ps: seq<Bytes>, p: Bytes, more: seq<Bytes>)
    requires Classify(p) == Throw && forall i :: 0 <= i < |ps| ==> Classify(ps[i]) != Throw
    ensures ActAll(c, ps + [p] + more) == ActAll(c, ps)
    ensures ps != [] ==> ActAll(c, ps) == Act(ActAll(c, ps[..|ps| - 1]), Classify(ps[|ps| - 1]))
    decreases |ps|
  {
    hide Act, Classify;
    var all := ps + [p] + more;
    if ps == [] {
      assert all[0] == p;
    } else {
      var c', tail := Act(c, Classify(ps[0])), ps[1..];
      assert all[0] == ps[0] && all[1..] == tail + [p] + more;
      assert forall i :: 0 <= i < |tail| ==> tail[i] == ps[i + 1];
      ThrowStops(c', tail, p, more);
      if tail != [] { assert ps[..|ps| - 1][1..] == tail[..|tail| - 1] && ps[..|ps| - 1][0] == ps[0]; }
    }
  }

  /** What is left in the buffer: everything behind the packet that throws, or the incomplete rest. */
  function Rest(buf: Bytes): Bytes
  {
    if !Complete(buf) then buf
    else if Classify(buf[..FrameLen(buf)]) == Throw then buf[FrameLen(buf)..]
    else Rest(buf[FrameLen(buf)..])
  }

  predicate Throws(ps: seq<Bytes>) { exists i :: 0 <= i < |ps| && Classify(ps[i]) == Throw }

  /** How many of the packets are taken off the buffer: up to and including the first that throws. */
  function Used(ps: seq<Bytes>): nat
  {
    if ps == [] then 0 else if Classify(ps[0]) == Throw then 1 else 1 + Used(ps[1..])
  }

  /** Packets taken off and what stays buffered are the bytes received, also when one throws. */
  lemma {:induction false} NothingSkipped(buf: Bytes)
    ensures Used(Packets(buf)) <= |Packets(buf)| && Concat(Packets(buf)[..Used(Packets(buf))]) + Rest(buf) == buf
    decreases |buf|
  {
    if !Complete(buf) {
      NoFrame(buf);
      assert Packets(buf)[..0] == [];
    } else {
      assert FrameLen(buf) > 0;
      hide *;
      var n := FrameLen(buf);
      var f, rest, ps := buf[..n], buf[n..], Packets(buf[n..]);
      FirstFrame(buf);
      RestStep(buf);
      UsedCons(f, ps);
      if Classify(f) == Throw {
        assert ps[..0] == [];
        NoBytes(f);
      } else {
        NothingSkipped(rest);
        ConcatCons(f, ps[..Used(ps)]);
        JoinMore(f, Concat(ps[..Used(ps)]), Rest(rest));
      }
    }
  }

  lemma UsedCons(f: Bytes, ps: seq<Bytes>)
    ensures var k := if Classify(f) == Throw then 0 else Used(ps);
            Used([f] + ps) == k + 1 && (k <= |ps| ==> ([f] + ps)[..k + 1] == [f] + ps[..k])
  {
    hide Classify;
    assert ([f] + ps)[1..] == ps;
  }

  lemma RestStep(buf: Bytes)
    requires Complete(buf)
    ensures var n := FrameLen(buf); Rest(buf) == if Classify(buf[..n]) == Throw then buf[n..] else Rest(buf[n..])
  {
    hide FrameLen, Classify;
  }

  lemma NoBytes(f: Bytes)
    ensures Concat([f] + []) == f
  {
    assert [f] + [] == [f] && [f][1..] == [];
    assert f + Concat([]) == f;
  }

  lemma {:induction false} ActAllKeeps(c: Calls, ps: seq<Bytes>)
    requires Consistent(c)
    ensures Consistent(ActAll(c, ps))
    decreases |ps|
  {
    hide Consistent, Act, Classify;
    if ps == [] || Classify(ps[0]) == Throw {
    } else {
      ActKeeps(c, Classify(ps[0]));
      ActAllKeeps(Act(c, Classify(ps[0])), ps[1..]);
    }
  }

  /** A reply moves only the oldest call of its own handle, and settles it; every other handle keeps its queue. */
  lemma ReplySettlesOldest(c: Calls, h: Handle, packet: Bytes)
    requires Consistent(c)
    ensures var c' := Settle(c, h, packet);
            && (forall k :: k != h ==> Get(c'.pending, k) == Get(c.pending, k) && Get(c'.gone, k) == Get(c.gone, k))
            && (if Get(c.pending, h) == [] then c' == c
                else
                  && Get(c'.pending, h) == Get(c.pending, h)[1..]
                  && Get(c'.gone, h) == Get(c.gone, h) + [Settled(Get(c.made, h)[|Get(c.gone, h)|], packet)])
  {
    assert Get(c.made, h) == CallsOf(Get(c.gone, h)) + Get(c.pending, h);
  }

  // ---------------------------------------------------------------- runs

  datatype Event = Do(h: Handle, call: Call) | Data(packets: seq<Bytes>) | Lost

  function Next(c: Calls, e: Event): Calls
  {
    match e
    case Do(h, call) => Enqueue(c, h, call)
    case Data(ps) => ActAll(c, ps)
    case Lost => FailAll(c)
  }

  function After(es: seq<Event>): Calls
  {
    if es == [] then Calls(map[], map[], map[]) else Next(After(es[..|es| - 1]), es[|es| - 1])
  }

  /**
   In every run no handle maps to an empty queue, and each handle's calls are conserved in order:
   the n-th call to leave a handle's queue is the n-th call made on it, so none leaves twice.
   */
  lemma {:induction false} CallsConserved(es: seq<Event>)
    ensures Consistent(After(es))
    ensures forall h :: |Get(After(es).made, h)| == |Get(After(es).gone, h)| + |Get(After(es).pending, h)|
  {
    if es == [] {
    } else {
      var c, e := After(es[..|es| - 1]), es[|es| - 1];
      CallsConserved(es[..|es| - 1]);
      hide Consistent;
      match e {
        case Do(h, call) => EnqueueKeeps(c, h, call);
        case Data(ps) => ActAllKeeps(c, ps);
        case Lost => FailAllKeeps(c);
      }
    }
    Counts(After(es));
  }

  lemma Counts(c: Calls)
    requires Consistent(c)
    ensures forall h :: |Get(c.made, h)| == |Get(c.gone, h)| + |Get(c.pending, h)|
  {
    forall h ensures |Get(c.made, h)| == |Get(c.gone, h)| + |Get(c.pending, h)| {
      assert Get(c.made, h) == CallsOf(Get(c.gone, h)) + Get(c.pending, h);
    }
  }

  // ---------------------------------------------------------------- the client object

  /** The calls gone once the queues of some handles have failed. */
  function FailedIn(gone: map<Handle, seq<Gone>>, pending: Queues, done: set<Handle>): map<Handle, seq<Gone>>
  {
    map h | h in gone.Keys + done :: if h in done then Get(gone, h) + Failures(Get(pending, h)) else Get(gone, h)
  }

  lemma FailedMore(gone: map<Handle, seq<Gone>>, pending: Queues, done: set<Handle>, h: Handle)
    requires h in pending && h !in done
    ensures var now := FailedIn(gone, pending, done);
            now[h := Get(now, h) + Failures(pending[h])] == FailedIn(gone, pending, done + {h})
  {
    hide Failures;
  }

  lemma FailedAll(c: Calls)
    ensures FailedIn(c.gone, c.pending, {}) == c.gone
    ensures FailedIn(c.gone, c.pending, c.pending.Keys) == FailAll(c).gone
  {
    forall h | h in c.gone.Keys && h !in c.pending.Keys ensures Get(c.gone, h) + Failures([]) == Get(c.gone, h) {
    }
    hide Failures;
  }

  /**
   Behind the calls that had left a handle's queue come all that were pending, in order: each promise rejected,
   each callback dropped.
   */
  ghost predicate AllFailed(pending: Queues, was: map<Handle, seq<Gone>>, now: map<Handle, seq<Gone>>)
  {
    forall h ::
      && |Get(now, h)| == |Get(was, h)| + |Get(pending, h)| && Get(was, h) <= Get(now, h)
      && forall i :: 0 <= i < |Get(pending, h)| ==>
           var call, gone := Get(pending, h)[i], Get(now, h)[|Get(was, h)| + i];
           (call.isPromise ==> gone == Rejected(call)) && (!call.isPromise ==> gone == Dropped(call))
  }

  lemma EachFails(c: Calls)
    ensures AllFailed(c.pending, c.gone, FailAll(c).gone)
  {
    var now := FailAll(c).gone;
    forall h ensures Get(now, h) == Get(c.gone, h) + Failures(Get(c.pending, h)) { }
  }

  class Client {
    var pending: Queues
    var recvBuffer: Bytes
    ghost var made: map<Handle, seq<Call>>
    ghost var gone: map<Handle, seq<Gone>>

    ghost function View(): Calls
      reads this
    {
      Calls(pending, made, gone)
    }

    constructor ()
      ensures View() == After([]) && recvBuffer == []
    {
      pending, recvBuffer, made, gone := map[], [], map[], map[];
    }

    /** `_enqueue`. */
    method EnqueueCall(h: Handle, call: Call)
      modifies this
      ensures View() == Enqueue(old(View()), h, call) && recvBuffer == old(recvBuffer)
    {
      made := made[h := Get(made, h) + [call]];
      if h !in pending { pending := pending[h := []]; }
      pending := pending[h := pending[h] + [call]];
      assert pending == old(pending)[h := Get(old(pending), h) + [call]];
    }

    /** `_handleResp`. */
    method HandleResp(h: Handle, packet: Bytes)
      modifies this
      ensures View() == Settle(old(View()), h, packet) && recvBuffer == old(recvBuffer)
    {
      if h in pending && pending[h] != [] {
        var queue := pending[h];
        gone := gone[h := Get(gone, h) + [Settled(queue[0], packet)]];
        queue := queue[1..];
        if queue == [] { pending := pending - {h}; } else { pending := pending[h := queue]; }
      }
    }

    method FailQueue(h: Handle)
      requires h in pending
      modifies this`gone
      ensures gone == old(gone)[h := Get(old(gone), h) + Failures(pending[h])]
    {
      var queue, i := pending[h], 0;
      gone := gone[h := Get(gone, h)];
      while i < |queue|
        invariant 0 <= i <= |queue|
        invariant h in gone && gone == old(gone)[h := gone[h]]
        invariant gone[h] == Get(old(gone), h) + Failures(queue[..i])
      {
        assert queue[..i + 1] == queue[..i] + [queue[i]];
        assert Failures(queue[..i + 1]) == Failures(queue[..i]) + [Failed(queue[i])];
        gone := gone[h := gone[h] + [Failed(queue[i])]];
        i := i + 1;
      }
      assert queue[..i] == queue;
    }

    /** `_failAll`: every queue is walked, promises are rejected, and the map is cleared. */
    method FailPending()
      modifies this
      ensures View() == FailAll(old(View())) && recvBuffer == old(recvBuffer)
      ensures pending == map[] && made == old(made) && AllFailed(old(pending), old(gone), gone)
    {
      hide FailedIn, AllFailed;
      EachFails(View());
      ghost var was := gone;
      var todo := pending.Keys;
      FailedAll(View());
      assert pending.Keys - todo == {};
      while todo != {}
        invariant todo <= pending.Keys && pending == old(pending) && made == old(made) && recvBuffer == old(recvBuffer)
        invariant gone == FailedIn(was, pending, pending.Keys - todo)
      {
        var h :| h in todo;
        FailedMore(was, pending, pending.Keys - todo, h);
        FailQueue(h);
        assert pending.Keys - todo + {h} == pending.Keys - (todo - {h});
        todo := todo - {h};
      }
      assert pending.Keys - todo == pending.Keys;
      pending := map[];
    }

    /** `_onData` and `_processBuffer`: cut out complete packets and act on each, until one throws. */
    method OnData(chunk: Bytes) returns (threw: bool)
      modifies this
      ensures var ps := Packets(old(recvBuffer) + chunk);
              && threw == Throws(ps) && View() == ActAll(old(View()), ps)
              && recvBuffer == Rest(old(recvBuffer) + chunk)
              && (!threw ==> recvBuffer == Leftover(old(recvBuffer) + chunk))
    {
      hide Act, Classify, FrameLen;
      recvBuffer := recvBuffer + chunk;
      ghost var all := recvBuffer;
      while Complete(recvBuffer)
        invariant ActAll(View(), Packets(recvBuffer)) == ActAll(old(View()), Packets(all))
        invariant Leftover(recvBuffer) == Leftover(all) && Rest(recvBuffer) == Rest(all)
        invariant Throws(Packets(recvBuffer)) == Throws(Packets(all))
        decreases |recvBuffer|
      {
        var n := FrameLen(recvBuffer);
        var packet := recvBuffer[..n];
        ghost var ps := Packets(recvBuffer);
        recvBuffer := recvBuffer[n..];
        assert ps == [packet] + Packets(recvBuffer) && ps[1..] == Packets(recvBuffer);
        ThrowsFirst(packet, Packets(recvBuffer));
        var a := Classify(packet);
        if a.Throw? { return true; }
        Perform(a);
      }
      return false;
    }

    method Perform(a: Action)
      modifies this
      ensures View() == Act(old(View()), a) && recvBuffer == old(recvBuffer)
    {
      match a
      case Reply(h, packet) => HandleResp(h, packet);
      case Fail => FailPending();
      case _ =>
    }
  }

  lemma ThrowsFirst(p: Bytes, ps: seq<Bytes>)
    ensures Throws([p] + ps) <==> Classify(p) == Throw || Throws(ps)
  {
    if Classify(p) == Throw { assert ([p] + ps)[0] == p; }
    if Throws(ps) {
      var i :| 0 <= i < |ps| && Classify(ps[i]) == Throw;
      assert ([p] + ps)[i + 1] == ps[i];
    }
  }
}
