/**
 The four layouts that carry a job through client, server and worker, and the decoders of the three
 programs. A handle is the byte string of a function name.
 */
module Wire {
  import opened Bytes
  import opened Layout
  import opened Protocol

  /** Client to server. */
  datatype DoJob = DoJob(ParamsType: nat, ParamsHandleType: nat, Handle: Bytes, Params: Bytes)

  /** Server to worker. */
  datatype GetData = GetData(ParamsType: nat, ParamsHandleType: nat, Handle: Bytes, Params: Bytes, JobId: Bytes)

  /** Worker to server. */
  datatype WorkerReturn = WorkerReturn(Handle: Bytes, Params: Bytes, Ret: Bytes, JobId: Bytes)

  /** Server to client. */
  datatype ServerReturn = ServerReturn(Handle: Bytes, Params: Bytes, Ret: Bytes)

  function DoJobBytes(d: DoJob): (r: Bytes)
    ensures |r| == 16 + |d.Handle| + |d.Params|
  {
    W32(d.ParamsType) + W32(d.ParamsHandleType) + W32(|d.Handle|) + d.Handle + W32(|d.Params|) + d.Params
  }

  function GetDataBytes(g: GetData): (r: Bytes)
    ensures |r| == 20 + |g.Handle| + |g.Params| + |g.JobId|
  {
    W32(g.ParamsType) + W32(g.ParamsHandleType) + W32(|g.Handle|) + W32(|g.Params|) + W32(|g.JobId|)
    + g.Handle + g.Params + g.JobId
  }

  function WorkerReturnBytes(w: WorkerReturn): (r: Bytes)
    ensures |r| == 16 + |w.Handle| + |w.Params| + |w.Ret| + |w.JobId|
  {
    W32(|w.Handle|) + w.Handle + W32(|w.Params|) + w.Params + W32(|w.Ret|) + w.Ret + W32(|w.JobId|) + w.JobId
  }

  function ServerReturnBytes(s: ServerReturn): (r: Bytes)
    ensures |r| == 12 + |s.Handle| + |s.Params| + |s.Ret|
  {
    W32(|s.Handle|) + W32(|s.Params|) + W32(|s.Ret|) + s.Handle + s.Params + s.Ret
  }

  predicate DoJob32(d: DoJob)
  {
    d.ParamsType < TWO32 && d.ParamsHandleType < TWO32 && |d.Handle| < TWO32 && |d.Params| < TWO32
  }

  predicate GetData32(g: GetData)
  {
    g.ParamsType < TWO32 && g.ParamsHandleType < TWO32 && |g.Handle| < TWO32 && |g.Params| < TWO32 && |g.JobId| < TWO32
  }

  predicate WorkerReturn32(w: WorkerReturn)
  {
    |w.Handle| < TWO32 && |w.Params| < TWO32 && |w.Ret| < TWO32 && |w.JobId| < TWO32
  }

  predicate ServerReturn32(s: ServerReturn) { |s.Handle| < TWO32 && |s.Params| < TWO32 && |s.Ret| < TWO32 }

  // ---------------------------------------------------------------- decoders

  lemma NothingBefore(b: Bytes, n: nat)
    ensures b[..0] + W32(n) == W32(n) && [] + W32(n) == W32(n)
  {
  }

  /** The server's reading of a job; missing parameter bytes are read as zeros. */
  function DecodeDoJob(b: Bytes): (r: Result<DoJob>)
    ensures r.Ok? ==> DoJob32(r.value) && |b| >= 16 + |r.value.Handle|
    ensures !r.Err?
  {
    var ptype :- ReadWord(b, 0);
    var htype :- ReadWord(b, 4);
    var hlen :- ReadWord(b, 8);
    var handle :- ReadBytes(b, 12, hlen);
    var plen :- ReadWord(b, 12 + hlen);
    Ok(DoJob(ptype, htype, handle, Fit(b[16 + hlen..], plen)))
  }

  /** The server's reading of a result; missing bytes of the job id are read as zeros. */
  function DecodeWorkerReturn(b: Bytes): (r: Result<WorkerReturn>)
    ensures r.Ok? ==> WorkerReturn32(r.value) && |b| >= 16 + |r.value.Handle| + |r.value.Params| + |r.value.Ret|
    ensures !r.Err?
  {
    var handle :- ReadSized(b, 0);
    var params :- ReadSized(b, 4 + |handle|);
    var ret :- ReadSized(b, 8 + |handle| + |params|);
    var at := 12 + |handle| + |params| + |ret|;
    var jlen :- ReadWord(b, at);
    Ok(WorkerReturn(handle, params, ret, Fit(b[at + 4..], jlen)))
  }

  /** The worker's reading of a job, behind the frame header. */
  function ParseGetData(b: Bytes): (r: Result<GetData>)
    ensures r.Ok? ==> GetData32(r.value) && Starts(b, GetDataBytes(r.value))
    ensures !r.Err?
  {
    hide W32;
    var ptype :- ReadWord(b, 0);
    NothingBefore(b, ptype);
    var htype :- ReadWord(b, 4);
    var hlen :- ReadWord(b, 8);
    var plen :- ReadWord(b, 12);
    var jlen :- ReadWord(b, 16);
    var handle :- ReadBytes(b, 20, hlen);
    var params :- ReadBytes(b, 20 + hlen, plen);
    var jobId :- ReadBytes(b, 20 + hlen + plen, jlen);
    Ok(GetData(ptype, htype, handle, params, jobId))
  }

  /** The client's reading of a result, behind the frame header. */
  function ParseServerReturn(b: Bytes): (r: Result<ServerReturn>)
    ensures r.Ok? ==> ServerReturn32(r.value) && Starts(b, ServerReturnBytes(r.value))
    ensures !r.Err?
  {
    hide W32;
    var hlen :- ReadWord(b, 0);
    NothingBefore(b, hlen);
    var plen :- ReadWord(b, 4);
    var rlen :- ReadWord(b, 8);
    var handle :- ReadBytes(b, 12, hlen);
    var params :- ReadBytes(b, 12 + hlen, plen);
    var ret :- ReadBytes(b, 12 + hlen + plen, rlen);
    Ok(ServerReturn(handle, params, ret))
  }

  // ---------------------------------------------------------------- exactness

  /** The worker reads a job exactly when it is that job packed, followed by anything. */
  lemma GetDataIff(b: Bytes, g: GetData)
    ensures ParseGetData(b) == Ok(g) <==> GetData32(g) && Starts(b, GetDataBytes(g))
  {
    if GetData32(g) && Starts(b, GetDataBytes(g)) { GetDataReadBack(b, g); }
  }

  lemma GetDataReadBack(b: Bytes, g: GetData)
    requires GetData32(g) && Starts(b, GetDataBytes(g))
    ensures ParseGetData(b) == Ok(g)
  {
    hide W32, ReadWord, ReadBytes, Starts;
    var w1 := W32(g.ParamsType);
    var w2 := w1 + W32(g.ParamsHandleType);
    var w3 := w2 + W32(|g.Handle|);
    var w4 := w3 + W32(|g.Params|);
    var w5 := w4 + W32(|g.JobId|);
    BytesThere(b, w5 + g.Handle + g.Params, g.JobId);
    BytesThere(b, w5 + g.Handle, g.Params);
    BytesThere(b, w5, g.Handle);
    WordThere(b, w4, |g.JobId|);
    WordThere(b, w3, |g.Params|);
    WordThere(b, w2, |g.Handle|);
    WordThere(b, w1, g.ParamsHandleType);
    NothingBefore(b, g.ParamsType);
    WordThere(b, [], g.ParamsType);
  }

  /** The client reads a result exactly when it is that result packed, followed by anything. */
  lemma ServerReturnIff(b: Bytes, s: ServerReturn)
    ensures ParseServerReturn(b) == Ok(s) <==> ServerReturn32(s) && Starts(b, ServerReturnBytes(s))
  {
    if ServerReturn32(s) && Starts(b, ServerReturnBytes(s)) { ServerReturnReadBack(b, s); }
  }

  lemma ServerReturnReadBack(b: Bytes, s: ServerReturn)
    requires ServerReturn32(s) && Starts(b, ServerReturnBytes(s))
    ensures ParseServerReturn(b) == Ok(s)
  {
    hide W32, ReadWord, ReadBytes, Starts;
    var w1 := W32(|s.Handle|);
    var w2 := w1 + W32(|s.Params|);
    var w3 := w2 + W32(|s.Ret|);
    BytesThere(b, w3 + s.Handle + s.Params, s.Ret);
    BytesThere(b, w3 + s.Handle, s.Params);
    BytesThere(b, w3, s.Handle);
    WordThere(b, w2, |s.Ret|);
    WordThere(b, w1, |s.Params|);
    NothingBefore(b, |s.Handle|);
    WordThere(b, [], |s.Handle|);
  }

  /** A layout whose last part may be cut short: the part before it is there, the last part is fitted. */
  lemma FitSplit(b: Bytes, x: Bytes, y: Bytes)
    requires |x| <= |b|
    ensures Fit(b, |x| + |y|) == x + y <==> Starts(b, x) && Fit(b[|x|..], |y|) == y
  {
    var f := Fit(b, |x| + |y|);
    assert f[..|x|] == b[..|x|] && f[|x|..] == Fit(b[|x|..], |y|);
    assert (x + y)[..|x|] == x && (x + y)[|x|..] == y;
    assert f == f[..|x|] + f[|x|..];
  }

  /** Everything before the parameters of a job. */
  function DoJobHead(d: DoJob): Bytes
  {
    W32(d.ParamsType) + W32(d.ParamsHandleType) + W32(|d.Handle|) + d.Handle + W32(|d.Params|)
  }

  lemma DoJobHeadRead(b: Bytes, d: DoJob)
    requires DecodeDoJob(b) == Ok(d)
    ensures Starts(b, DoJobHead(d)) && Fit(b[|DoJobHead(d)|..], |d.Params|) == d.Params
  {
    hide W32;
    NothingBefore(b, d.ParamsType);
  }

  lemma DoJobHeadThere(b: Bytes, d: DoJob)
    requires DoJob32(d) && Starts(b, DoJobHead(d)) && Fit(b[|DoJobHead(d)|..], |d.Params|) == d.Params
    ensures DecodeDoJob(b) == Ok(d)
  {
    hide W32, ReadWord, ReadBytes, Fit;
    Long(b, DoJobHead(d));
    hide Starts;
    var w1 := W32(d.ParamsType);
    var w2 := w1 + W32(d.ParamsHandleType);
    var w3 := w2 + W32(|d.Handle|);
    WordThere(b, w3 + d.Handle, |d.Params|);
    BytesThere(b, w3, d.Handle);
    WordThere(b, w2, |d.Handle|);
    WordThere(b, w1, d.ParamsHandleType);
    NothingBefore(b, d.ParamsType);
    WordThere(b, [], d.ParamsType);
  }

  /**
   The server reads a job exactly when the input, cut or zero-filled to the job's length, is that job packed,
   and only parameter bytes are missing.
   */
  lemma DoJobIff(b: Bytes, d: DoJob)
    ensures DecodeDoJob(b) == Ok(d) <==>
            DoJob32(d) && |b| >= 16 + |d.Handle| && Fit(b, |DoJobBytes(d)|) == DoJobBytes(d)
  {
    hide W32, Fit, Starts, DecodeDoJob;
    assert DoJobBytes(d) == DoJobHead(d) + d.Params && |DoJobHead(d)| == 16 + |d.Handle|;
    hide DoJobHead, DoJobBytes;
    if |b| >= 16 + |d.Handle| { FitSplit(b, DoJobHead(d), d.Params); }
    if DecodeDoJob(b) == Ok(d) { DoJobHeadRead(b, d); }
    if DoJob32(d) && |b| >= 16 + |d.Handle| && Fit(b, |DoJobBytes(d)|) == DoJobBytes(d) { DoJobHeadThere(b, d); }
  }

  /** Everything before the job id of a result. */
  function WorkerReturnHead(w: WorkerReturn): Bytes
  {
    W32(|w.Handle|) + w.Handle + W32(|w.Params|) + w.Params + W32(|w.Ret|) + w.Ret + W32(|w.JobId|)
  }

  lemma WorkerReturnHeadRead(b: Bytes, w: WorkerReturn)
    requires DecodeWorkerReturn(b) == Ok(w)
    ensures Starts(b, WorkerReturnHead(w)) && Fit(b[|WorkerReturnHead(w)|..], |w.JobId|) == w.JobId
  {
    hide W32, ReadWord, ReadSized, Fit;
    NothingBefore(b, |w.Handle|);
  }

  lemma WorkerReturnHeadThere(b: Bytes, w: WorkerReturn)
    requires WorkerReturn32(w) && Starts(b, WorkerReturnHead(w))
             && Fit(b[|WorkerReturnHead(w)|..], |w.JobId|) == w.JobId
    ensures DecodeWorkerReturn(b) == Ok(w)
  {
    hide W32, ReadWord, ReadSized, Fit;
    Long(b, WorkerReturnHead(w));
    hide Starts;
    var h := W32(|w.Handle|) + w.Handle;
    var p := h + W32(|w.Params|) + w.Params;
    WordThere(b, p + W32(|w.Ret|) + w.Ret, |w.JobId|);
    FieldThere(b, p, w.Ret);
    FieldThere(b, h, w.Params);
    NothingBefore(b, |w.Handle|);
    FieldThere(b, [], w.Handle);
  }

  /** The same for a worker's result, where only bytes of the job id may be missing. */
  lemma WorkerReturnIff(b: Bytes, w: WorkerReturn)
    ensures DecodeWorkerReturn(b) == Ok(w) <==>
            WorkerReturn32(w) && |b| >= 16 + |w.Handle| + |w.Params| + |w.Ret|
              && Fit(b, |WorkerReturnBytes(w)|) == WorkerReturnBytes(w)
  {
    hide W32, Fit, Starts, DecodeWorkerReturn, ReadSized, ReadWord;
    var enough := |b| >= 16 + |w.Handle| + |w.Params| + |w.Ret|;
    assert WorkerReturnBytes(w) == WorkerReturnHead(w) + w.JobId
           && |WorkerReturnHead(w)| == 16 + |w.Handle| + |w.Params| + |w.Ret|;
    hide WorkerReturnHead, WorkerReturnBytes;
    if enough { FitSplit(b, WorkerReturnHead(w), w.JobId); }
    if DecodeWorkerReturn(b) == Ok(w) { WorkerReturnHeadRead(b, w); }
    if WorkerReturn32(w) && enough && Fit(b, |WorkerReturnBytes(w)|) == WorkerReturnBytes(w) {
      WorkerReturnHeadThere(b, w);
    }
  }

  // ---------------------------------------------------------------- panics

  function WordAt(b: Bytes, at: nat): nat
    requires at + 4 <= |b|
  {
    FromBE(b[at..at + 4])
  }

  /** Decoding a job panics exactly when the fixed part or the handle and the length behind it are not all there. */
  lemma DoJobPanicIff(b: Bytes)
    ensures DecodeDoJob(b).Panic? <==> |b| < 12 || |b| < 16 + WordAt(b, 8)
  {
    hide FromBE, W32, Fit;
  }

  /** One of `n` consecutive length words, each behind the field the one before it announces, lies past the end. */
  predicate Short(b: Bytes, at: nat, n: nat)
    decreases n
  {
    n > 0 && (at + 4 > |b| || Short(b, at + 4 + WordAt(b, at), n - 1))
  }

  /** Decoding a result panics exactly when one of its four length words lies past the end. */
  lemma WorkerReturnPanicIff(b: Bytes)
    ensures DecodeWorkerReturn(b).Panic? <==> Short(b, 0, 4)
  {
    hide FromBE, W32, Fit;
  }

  // ---------------------------------------------------------------- frames

  datatype Frame = Frame(connType: nat, dataType: nat, payload: Bytes, rest: Bytes)

  /**
   The server's reading of one frame from the bytes of a stream: short input, other peers and frames over 32
   MiB are errors.
   */
  function ReadFrame(stream: Bytes): (r: Result<Frame>)
    ensures !r.Panic?
  {
    if |stream| < HEADER_SIZE then Err else
      var connType, dataType, dataLen :=
        ReadWord(stream, 0).value, ReadWord(stream, 4).value, ReadWord(stream, 8).value;
      if connType != CONN_TYPE_WORKER && connType != CONN_TYPE_CLIENT && connType != CONN_TYPE_SERVICE then Err
      else if dataLen > MAX_FRAME_SIZE then Err
      else if dataLen == 0 then Ok(Frame(connType, dataType, [], stream[HEADER_SIZE..]))
      else if HEADER_SIZE + dataLen > |stream| then Err
      else Ok(Frame(connType, dataType, stream[HEADER_SIZE..HEADER_SIZE + dataLen], stream[HEADER_SIZE + dataLen..]))
  }

  /** From a worker (2), a client (3) or a service (4), with at most 32 MiB of content. */
  predicate Accepted(f: Frame)
  {
    (f.connType == 2 || f.connType == 3 || f.connType == 4) && f.dataType < TWO32 && |f.payload| <= 0x200_0000
  }

  /**
   The server takes a frame off the stream exactly when the stream starts with that frame packed, from a
   known kind of peer and within the limit.
   */
  lemma ReadFrameIff(stream: Bytes, f: Frame)
    ensures ReadFrame(stream) == Ok(f) <==>
            Accepted(f) && stream == FrameBytes(f.connType, f.dataType, f.payload) + f.rest
  {
    if ReadFrame(stream) == Ok(f) { FrameRead(stream, f); }
    if Accepted(f) && stream == FrameBytes(f.connType, f.dataType, f.payload) + f.rest { FrameThere(stream, f); }
  }

  lemma FrameRead(stream: Bytes, f: Frame)
    requires ReadFrame(stream) == Ok(f)
    ensures Accepted(f) && stream == FrameBytes(f.connType, f.dataType, f.payload) + f.rest
  {
    hide W32, ReadWord;
    NothingBefore(stream, f.connType);
    var n := HEADER_SIZE + |f.payload|;
    assert stream[..n] == stream[..HEADER_SIZE] + stream[HEADER_SIZE..n];
    assert stream == stream[..n] + stream[n..];
  }

  lemma FrameThere(stream: Bytes, f: Frame)
    requires Accepted(f) && stream == FrameBytes(f.connType, f.dataType, f.payload) + f.rest
    ensures ReadFrame(stream) == Ok(f)
  {
    hide W32;
    var p := FrameBytes(f.connType, f.dataType, f.payload);
    FrameParts(f.connType, f.dataType, f.payload);
    hide FrameBytes;
    assert stream[0..4] == p[0..4] && stream[4..8] == p[4..8] && stream[8..12] == p[8..12];
    assert stream[HEADER_SIZE..|p|] == p[HEADER_SIZE..] && stream[|p|..] == f.rest;
  }

  /** A frame that the server takes off the stream can still make its decoder panic: one byte of content is enough. */
  lemma AcceptedYetPanics(x: Byte, rest: Bytes)
    ensures ReadFrame(FrameBytes(CONN_TYPE_CLIENT, PDT_C_DO_JOB, [x]) + rest)
            == Ok(Frame(CONN_TYPE_CLIENT, PDT_C_DO_JOB, [x], rest))
    ensures DecodeDoJob([x]).Panic?
  {
    ReadFrameIff(FrameBytes(CONN_TYPE_CLIENT, PDT_C_DO_JOB, [x]) + rest,
                 Frame(CONN_TYPE_CLIENT, PDT_C_DO_JOB, [x], rest));
    DoJobPanicIff([x]);
  }
}
