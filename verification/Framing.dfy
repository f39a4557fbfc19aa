/** Reassembling frames from a byte stream that arrives in arbitrary chunks. */
module Framing {
  import opened Bytes
  import opened Protocol
  import WriteQueue

  /** Length of the frame that starts a buffer of at least `HEADER_SIZE` bytes. */
  function FrameLen(buf: Bytes): (n: nat)
    requires |buf| >= HEADER_SIZE
    ensures n >= HEADER_SIZE
  {
    HEADER_SIZE + FromBE(buf[8..12])
  }

  predicate Complete(buf: Bytes) { |buf| >= HEADER_SIZE && |buf| >= FrameLen(buf) }

  /** The complete frames at the front of a buffer. */
  function Packets(buf: Bytes): seq<Bytes>
  {
    if !Complete(buf) then [] else [buf[..FrameLen(buf)]] + Packets(buf[FrameLen(buf)..])
  }

  /** What is left after them. */
  function Leftover(buf: Bytes): (r: Bytes)
    ensures !Complete(r)
  {
    if !Complete(buf) then buf else Leftover(buf[FrameLen(buf)..])
  }

  /** A byte string that is exactly one frame. */
  predicate IsFrame(f: Bytes) { |f| >= HEADER_SIZE && FrameLen(f) == |f| }

  ghost predicate AllFrames(fs: seq<Bytes>) { forall i :: 0 <= i < |fs| ==> IsFrame(fs[i]) }

  /** The first complete frame of a buffer. */
  lemma FirstFrame(buf: Bytes)
    requires Complete(buf)
    ensures var n := FrameLen(buf);
            && IsFrame(buf[..n]) && buf == buf[..n] + buf[n..]
            && Packets(buf) == [buf[..n]] + Packets(buf[n..]) && Leftover(buf) == Leftover(buf[n..])
  {
    assert buf[..FrameLen(buf)][8..12] == buf[8..12];
  }

  lemma FramesCons(f: Bytes, fs: seq<Bytes>)
    requires IsFrame(f) && AllFrames(fs)
    ensures AllFrames([f] + fs)
  {
    hide IsFrame;
  }

  lemma NoFrame(buf: Bytes)
    requires !Complete(buf)
    ensures Packets(buf) == [] && Leftover(buf) == buf && Concat([]) == []
  {
  }

  /** Nothing is lost or invented: the packets and the leftover are the bytes received. */
  lemma {:induction false} NothingLost(buf: Bytes)
    ensures Concat(Packets(buf)) + Leftover(buf) == buf
    ensures AllFrames(Packets(buf))
    decreases |buf|
  {
    hide Packets, Leftover, Concat, IsFrame, FrameLen;
    if !Complete(buf) {
      NoFrame(buf);
    } else {
      FirstFrame(buf);
      var n := FrameLen(buf);
      var f, rest := buf[..n], buf[n..];
      NothingLost(rest);
      ConcatCons(f, Packets(rest));
      FramesCons(f, Packets(rest));
      assert f + (Concat(Packets(rest)) + Leftover(rest)) == f + Concat(Packets(rest)) + Leftover(rest);
    }
  }

  lemma CompleteFront(buf: Bytes, more: Bytes)
    requires Complete(buf)
    ensures Complete(buf + more) && FrameLen(buf + more) == FrameLen(buf)
    ensures var n := FrameLen(buf); (buf + more)[..n] == buf[..n] && (buf + more)[n..] == buf[n..] + more
  {
    assert (buf + more)[8..12] == buf[8..12];
  }

  /** Bytes that come later only extend what was extracted: chunk boundaries do not matter. */
  lemma {:induction false} Resume(buf: Bytes, more: Bytes)
    ensures Packets(buf + more) == Packets(buf) + Packets(Leftover(buf) + more)
    ensures Leftover(buf + more) == Leftover(Leftover(buf) + more)
    decreases |buf|
  {
    if Complete(buf) {
      CompleteFront(buf, more);
      hide FrameLen, Complete;
      var n := FrameLen(buf);
      Resume(buf[n..], more);
      assert [buf[..n]] + (Packets(buf[n..]) + Packets(Leftover(buf[n..]) + more))
          == [buf[..n]] + Packets(buf[n..]) + Packets(Leftover(buf[n..]) + more);
    }
  }

  /** Feeding chunks one by one: packets so far, and the buffer. */
  function Feed(chunks: seq<Bytes>): (seq<Bytes>, Bytes)
  {
    if chunks == [] then ([], [])
    else
      var (ps, buf) := Feed(chunks[..|chunks| - 1]);
      var now := buf + chunks[|chunks| - 1];
      (ps + Packets(now), Leftover(now))
  }

  /** However a stream is cut into chunks, the same packets come out and the same bytes stay buffered. */
  lemma {:induction false} ChunksDoNotMatter(chunks: seq<Bytes>)
    ensures Feed(chunks) == (Packets(Concat(chunks)), Leftover(Concat(chunks)))
  {
    hide Packets, Leftover;
    if chunks == [] {
      assert Packets([]) == [] && Leftover([]) == [] by { EmptyBuffer(); }
    } else {
      var front, last := chunks[..|chunks| - 1], chunks[|chunks| - 1];
      ChunksDoNotMatter(front);
      assert chunks == front + [last];
      ConcatPush(front, last);
      Resume(Concat(front), last);
    }
  }

  lemma EmptyBuffer()
    ensures Packets([]) == [] && Leftover([]) == []
  {
  }

  /** A stream of whole frames, followed by the beginning of one more, splits exactly there. */
  lemma {:induction false} SplitsAtFrames(fs: seq<Bytes>, tail: Bytes)
    requires AllFrames(fs) && !Complete(tail)
    ensures Packets(Concat(fs) + tail) == fs && Leftover(Concat(fs) + tail) == tail
  {
    if fs == [] {
      assert Concat(fs) + tail == tail;
    } else {
      var f, rest := fs[0], fs[1..];
      FramesFront(fs, tail);
      hide *;
      SplitsAtFrames(rest, tail);
      OneFrame(f, Concat(rest) + tail);
      assert [f] + rest == fs;
    }
  }

  lemma FramesFront(fs: seq<Bytes>, tail: Bytes)
    requires AllFrames(fs) && fs != []
    ensures AllFrames(fs[1..]) && IsFrame(fs[0]) && Concat(fs) + tail == fs[0] + (Concat(fs[1..]) + tail)
  {
    hide IsFrame, Concat;
    var rest := fs[1..];
    assert forall i :: 0 <= i < |rest| ==> rest[i] == fs[i + 1];
    ConcatCons(fs[0], rest);
    assert fs == [fs[0]] + rest;
    JoinMore(fs[0], Concat(rest), tail);
  }

  lemma JoinMore(a: Bytes, b: Bytes, c: Bytes)
    ensures (a + b) + c == a + (b + c)
  {
  }

  lemma OneFrame(f: Bytes, more: Bytes)
    requires IsFrame(f)
    ensures Packets(f + more) == [f] + Packets(more) && Leftover(f + more) == Leftover(more)
  {
    hide FromBE;
    CompleteFront(f, more);
    assert f[..|f|] == f && f[|f|..] == [] && [] + more == more;
  }

  /** The part of `fs` that lies wholly inside the first `n` bytes of their concatenation. */
  function Whole(fs: seq<Bytes>, n: nat): (k: nat)
    requires n <= |Concat(fs)|
    ensures k <= |fs|
  {
    if fs == [] || n < |fs[0]| then 0 else 1 + Whole(fs[1..], n - |fs[0]|)
  }

  lemma {:induction false} WholeCount(fs: seq<Bytes>, n: nat)
    requires n <= |Concat(fs)|
    ensures var k := Whole(fs, n);
            |Concat(fs[..k])| <= n && if k < |fs| then n < |Concat(fs[..k])| + |fs[k]| else n == |Concat(fs)|
  {
    if fs == [] || n < |fs[0]| {
      assert fs[..0] == [] && Concat([]) == [];
    } else {
      var f, rest := fs[0], fs[1..];
      WholeCount(rest, n - |f|);
      var k := Whole(rest, n - |f|);
      assert fs[..k + 1] == [f] + rest[..k] && fs == [f] + rest;
      ConcatCons(f, rest[..k]);
      ConcatCons(f, rest);
    }
  }

  lemma WholePrefix(fs: seq<Bytes>, n: nat)
    requires n <= |Concat(fs)|
    ensures var k := Whole(fs, n);
            && |Concat(fs[..k])| <= n && (k < |fs| ==> n < |Concat(fs[..k])| + |fs[k]|)
            && Concat(fs)[..n] == Concat(fs[..k]) + Concat(fs)[|Concat(fs[..k])|..n]
            && (k < |fs| ==> Concat(fs)[|Concat(fs[..k])|..n] == fs[k][..n - |Concat(fs[..k])|])
            && (k == |fs| ==> n == |Concat(fs)|)
  {
    WholeCount(fs, n);
    hide Concat, Whole;
    var k := Whole(fs, n);
    SplitAt(fs, k);
    if k < |fs| { NextFrame(fs, k, n); }
  }

  lemma SplitAt(fs: seq<Bytes>, k: nat)
    requires k <= |fs|
    ensures Concat(fs) == Concat(fs[..k]) + Concat(fs[k..])
    ensures k == |fs| ==> fs[..k] == fs
  {
    hide Concat;
    assert fs == fs[..k] + fs[k..];
    ConcatJoin(fs[..k], fs[k..]);
  }

  lemma NextFrame(fs: seq<Bytes>, k: nat, n: nat)
    requires k < |fs| && |Concat(fs[..k])| <= n < |Concat(fs[..k])| + |fs[k]| && n <= |Concat(fs)|
    ensures Concat(fs)[|Concat(fs[..k])|..n] == fs[k][..n - |Concat(fs[..k])|]
  {
    hide Concat;
    SplitAt(fs, k);
    assert fs[k..] == [fs[k]] + fs[k + 1..];
    ConcatCons(fs[k], fs[k + 1..]);
    var a, b, m := Concat(fs[..k]), Concat(fs[k + 1..]), n - |Concat(fs[..k])|;
    MiddleOf(a, fs[k], b, m);
  }

  lemma MiddleOf(a: Bytes, f: Bytes, b: Bytes, m: nat)
    requires m <= |f|
    ensures (a + (f + b))[|a|..|a| + m] == f[..m]
  {
  }

  lemma ProperStart(f: Bytes, m: nat)
    requires IsFrame(f) && m < |f|
    ensures !Complete(f[..m])
  {
    if m >= HEADER_SIZE { assert f[..m][8..12] == f[8..12]; }
  }

  /** From any prefix of a stream of frames the receiver extracts exactly the frames that are complete. */
  lemma PrefixYieldsWholeFrames(fs: seq<Bytes>, stream: Bytes)
    requires AllFrames(fs) && stream <= Concat(fs)
    ensures var k := Whole(fs, |stream|);
            && Packets(stream) == fs[..k] && stream == Concat(fs[..k]) + Leftover(stream)
            && (k < |fs| ==> |Concat(fs[..k])| + |fs[k]| > |stream|)
  {
    hide Packets, Leftover, Concat;
    var n := |stream|;
    var k := Whole(fs, n);
    WholePrefix(fs, n);
    var done := |Concat(fs[..k])|;
    var tail := Concat(fs)[done..n];
    assert stream == Concat(fs)[..n];
    if k < |fs| { ProperStart(fs[k], n - done); } else { assert fs[..k] == fs; }
    SplitsAtFrames(fs[..k], tail);
  }

  /**
   End to end: in every reachable state of a connection whose accepted packs are frames, whatever
   the chunks in which the socket's bytes reach the peer, the peer has extracted exactly the
   accepted frames that are complete so far, in order, and buffers the rest.
   */
  lemma EndToEnd(cs: seq<WriteQueue.Conn>, es: seq<WriteQueue.Event>, max: nat, i: nat, chunks: seq<Bytes>)
    requires WriteQueue.IsRun(cs, es, max) && i < |cs| && AllFrames(cs[i].accepted)
    requires Concat(chunks) == cs[i].socket
    ensures cs[i].socket <= Concat(cs[i].accepted)
    ensures var k := Whole(cs[i].accepted, |cs[i].socket|);
            && Feed(chunks).0 == cs[i].accepted[..k]
            && Concat(Feed(chunks).0) + Feed(chunks).1 == cs[i].socket
            && (k < |cs[i].accepted| ==> |Concat(cs[i].accepted[..k])| + |cs[i].accepted[k]| > |cs[i].socket|)
  {
    WriteQueue.SocketPrefix(cs, es, max, i);
    hide WriteQueue.IsRun, Concat, Packets, Leftover;
    ChunksDoNotMatter(chunks);
    PrefixYieldsWholeFrames(cs[i].accepted, cs[i].socket);
  }
}
