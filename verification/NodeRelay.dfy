/** What the Go server's frames do in the Node client. */
module NodeRelay {
  import opened Bytes
  import opened Protocol
  import opened Layout
  import opened Wire
  import opened NodeClient

  function ReturnFrame(s: ServerReturn): Bytes { FrameBytes(CONN_TYPE_SERVER, PDT_S_RETURN_DATA, ServerReturnBytes(s)) }

  /** A server frame as the client's tests see it: sender and type. */
  lemma ServerFrame(dataType: nat, content: Bytes)
    requires dataType < TWO32 && |content| < TWO32
    ensures var f := FrameBytes(CONN_TYPE_SERVER, dataType, content);
            |f| >= HEADER_SIZE && FromBE(f[0..4]) == CONN_TYPE_SERVER && FromBE(f[4..8]) == dataType
              && f[HEADER_SIZE..] == content
  {
    FrameParts(CONN_TYPE_SERVER, dataType, content);
  }

  /** A packed result is a reply to the handle it carries. */
  lemma ResultIsReply(s: ServerReturn)
    requires s.Handle != [] && |ServerReturnBytes(s)| < TWO32
    ensures Classify(ReturnFrame(s)) == Reply(s.Handle, ReturnFrame(s))
  {
    var f, c := ReturnFrame(s), ServerReturnBytes(s);
    ServerFrame(PDT_S_RETURN_DATA, c);
    WholeResult(s);
    hide FrameBytes, ServerReturnBytes;
    assert f[12..16] == c[0..4] && f[24..24 + |s.Handle|] == c[12..12 + |s.Handle|];
  }

  lemma WholeResult(s: ServerReturn)
    requires |ServerReturnBytes(s)| < TWO32
    ensures var c := ServerReturnBytes(s); FromBE(c[0..4]) == |s.Handle| && c[12..12 + |s.Handle|] == s.Handle
  {
    hide W32, FromBE;
    var c := ServerReturnBytes(s);
    var w := W32(|s.Handle|) + W32(|s.Params|) + W32(|s.Ret|);
    assert Starts(c, w + s.Handle);
    BytesThere(c, w, s.Handle);
    assert [] + W32(|s.Handle|) == W32(|s.Handle|) && Starts(c, W32(|s.Handle|));
    WordThere(c, [], |s.Handle|);
  }

  /** An error answer of the server fails every pending call of the connection. */
  lemma ErrorFailsAll(dataType: nat, c: Calls)
    requires dataType == PDT_ERROR || dataType == PDT_CANT_DO || dataType == PDT_RATELIMIT
    ensures ActAll(c, [FrameBytes(CONN_TYPE_SERVER, dataType, [])]) == FailAll(c)
  {
    hide FrameBytes;
    var f := FrameBytes(CONN_TYPE_SERVER, dataType, []);
    ServerFrame(dataType, []);
    var none: seq<Bytes> := [];
    assert [f][1..] == none;
    assert Classify(f) == Fail;
    hide Classify;
    assert ActAll(FailAll(c), none) == FailAll(c);
  }

  function ReturnFrames(rs: seq<ServerReturn>): seq<Bytes>
  {
    if rs == [] then [] else ReturnFrames(rs[..|rs| - 1]) + [ReturnFrame(rs[|rs| - 1])]
  }

  function SettleAll(c: Calls, rs: seq<ServerReturn>): Calls
  {
    if rs == [] then c else Settle(SettleAll(c, rs[..|rs| - 1]), rs[|rs| - 1].Handle, ReturnFrame(rs[|rs| - 1]))
  }

  lemma {:induction false} ActAllPush(c: Calls, ps: seq<Bytes>, p: Bytes)
    requires !Throws(ps) && Classify(p) != Throw
    ensures ActAll(c, ps + [p]) == Act(ActAll(c, ps), Classify(p)) && !Throws(ps + [p])
    decreases |ps|
  {
    hide Act, Classify;
    if ps == [] {
      assert ps + [p] == [p] && [p][1..] == [];
      assert ActAll(Act(c, Classify(p)), []) == Act(c, Classify(p));
    } else {
      assert Classify(ps[0]) != Throw;
      assert forall i :: 0 <= i < |ps| - 1 ==> ps[1..][i] == ps[i + 1];
      ActAllPush(Act(c, Classify(ps[0])), ps[1..], p);
      assert (ps + [p])[1..] == ps[1..] + [p];
    }
  }

  /**
   Results that reach the client in the order the server wrote them each settle, in that order, the oldest
   call of their handle.
   */
  lemma {:induction false} ResultsSettleInOrder(c: Calls, rs: seq<ServerReturn>)
    requires forall i :: 0 <= i < |rs| ==> rs[i].Handle != [] && |ServerReturnBytes(rs[i])| < TWO32
    ensures ActAll(c, ReturnFrames(rs)) == SettleAll(c, rs) && !Throws(ReturnFrames(rs))
  {
    hide Classify, ReturnFrame, ServerReturnBytes;
    if rs == [] {
    } else {
      var front, last := rs[..|rs| - 1], rs[|rs| - 1];
      assert forall i :: 0 <= i < |front| ==> front[i] == rs[i];
      ResultsSettleInOrder(c, front);
      ResultIsReply(last);
      ActAllPush(c, ReturnFrames(front), ReturnFrame(last));
    }
  }
}
