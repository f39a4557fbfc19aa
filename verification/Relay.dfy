/** A job's way through the three programs and back: nothing is changed on the way. */
module Relay {
  import opened Bytes
  import opened Protocol
  import opened Layout
  import opened Wire
  import opened Programs

  /** The checks both receivers start with; fields are then read from everything behind the header. */
  function Open(data: Bytes): (r: Result<(nat, Bytes)>)
    ensures !r.Panic?
  {
    if |data| < HEADER_SIZE then Err else
      var cl := ReadWord(data, 8).value;
      if |data| < HEADER_SIZE + cl then Err else Ok((ReadWord(data, 4).value, data[HEADER_SIZE..]))
  }

  /** What a worker makes of a frame; its content goes to the parameter parser only for a job. */
  datatype WorkerMsg = Job(g: GetData) | NoJob(dataType: nat)

  function WorkerDecodePack(data: Bytes): (r: Result<WorkerMsg>)
  {
    var (dataType, body) :- Open(data);
    if dataType == PDT_S_GET_DATA then
      var g :- ParseGetData(body);
      Ok(Job(g))
    else Ok(NoJob(dataType))
  }

  datatype ClientMsg = Answer(s: ServerReturn) | NoAnswer(dataType: nat)

  function ClientDecodePack(data: Bytes): (r: Result<ClientMsg>)
  {
    var (dataType, body) :- Open(data);
    if dataType == PDT_S_RETURN_DATA then
      var s :- ParseServerReturn(body);
      Ok(Answer(s))
    else Ok(NoAnswer(dataType))
  }

  /** A packed frame opens to its type and content. */
  lemma OpenFrame(connType: nat, dataType: nat, content: Bytes)
    requires connType < TWO32 && dataType < TWO32 && |content| < TWO32
    ensures Open(FrameBytes(connType, dataType, content)) == Ok((dataType, content))
  {
    FrameParts(connType, dataType, content);
  }

  /**
   A receiver opens what starts with a whole frame, whoever sent it, and reads its type and everything behind
   the header. Input that is shorter than a header or than the header announces is an error.
   */
  lemma OpenIff(data: Bytes, dataType: nat, body: Bytes)
    ensures Open(data) == Ok((dataType, body)) <==>
            |data| >= 12 && |data| >= 12 + WordAt(data, 8) && dataType == WordAt(data, 4) && body == data[12..]
    ensures Open(data) == Err <==> |data| < 12 || |data| < 12 + WordAt(data, 8)
  {
    hide FromBE;
  }

  /** Frames of another type than a job are no job for a worker, and no answer for a client unless a result. */
  lemma OtherFrames(connType: nat, dataType: nat, content: Bytes)
    requires connType < TWO32 && dataType < TWO32 && |content| < TWO32
    ensures dataType != 10 ==> WorkerDecodePack(FrameBytes(connType, dataType, content)) == Ok(NoJob(dataType))
    ensures dataType != 11 ==> ClientDecodePack(FrameBytes(connType, dataType, content)) == Ok(NoAnswer(dataType))
  {
    hide Open, FrameBytes, ParseGetData, ParseServerReturn;
    OpenFrame(connType, dataType, content);
  }

  /** The first eight bytes of the four frames on a job's way: who sends it and what it is. */
  lemma FrameHeads(content: Bytes)
    ensures Starts(FrameBytes(CONN_TYPE_CLIENT, PDT_C_DO_JOB, content), [0, 0, 0, 3, 0, 0, 0, 16])
    ensures Starts(FrameBytes(CONN_TYPE_SERVER, PDT_S_GET_DATA, content), [0, 0, 0, 1, 0, 0, 0, 10])
    ensures Starts(FrameBytes(CONN_TYPE_WORKER, PDT_W_RETURN_DATA, content), [0, 0, 0, 2, 0, 0, 0, 15])
    ensures Starts(FrameBytes(CONN_TYPE_SERVER, PDT_S_RETURN_DATA, content), [0, 0, 0, 1, 0, 0, 0, 11])
  {
    FrameHead(CONN_TYPE_CLIENT, PDT_C_DO_JOB, content);
    FrameHead(CONN_TYPE_SERVER, PDT_S_GET_DATA, content);
    FrameHead(CONN_TYPE_WORKER, PDT_W_RETURN_DATA, content);
    FrameHead(CONN_TYPE_SERVER, PDT_S_RETURN_DATA, content);
    hide FrameBytes, Starts;
  }

  lemma FrameHead(connType: nat, dataType: nat, content: Bytes)
    requires connType < 256 && dataType < 256
    ensures Starts(FrameBytes(connType, dataType, content), [0, 0, 0, connType, 0, 0, 0, dataType])
  {
    SmallWord(connType);
    SmallWord(dataType);
    hide W32;
  }

  lemma WholeStarts(b: Bytes)
    ensures Starts(b, b) && Fit(b, |b|) == b
  {
  }

  function Forward(d: DoJob, jobId: Bytes): GetData
  {
    GetData(d.ParamsType, d.ParamsHandleType, d.Handle, d.Params, jobId)
  }

  /**
   Client to worker: the server decodes the client's job as it was, and the worker decodes the server's frame
   to the same handle, parameters and types, with the job id the server gave.
   */
  lemma RequestRelay(d: DoJob, jobId: Bytes)
    requires d.ParamsType < TWO32 && d.ParamsHandleType < TWO32 && |DoJobBytes(d)| < TWO32
             && |GetDataBytes(Forward(d, jobId))| < TWO32
    ensures DecodeDoJob(DoJobBytes(d)) == Ok(d)
    ensures WorkerDecodePack(FrameBytes(CONN_TYPE_SERVER, PDT_S_GET_DATA, GetDataBytes(Forward(d, jobId))))
            == Ok(Job(Forward(d, jobId)))
  {
    hide DoJobBytes, GetDataBytes, FrameBytes, DecodeDoJob, ParseGetData, Open, Fit, Starts;
    WholeStarts(DoJobBytes(d));
    DoJobIff(DoJobBytes(d), d);
    var g := Forward(d, jobId);
    OpenFrame(CONN_TYPE_SERVER, PDT_S_GET_DATA, GetDataBytes(g));
    WholeStarts(GetDataBytes(g));
    GetDataIff(GetDataBytes(g), g);
  }

  function Back(w: WorkerReturn): ServerReturn { ServerReturn(w.Handle, w.Params, w.Ret) }

  /**
   Worker to client: the server decodes the worker's result as it was, and the client decodes the server's
   frame to the same handle, parameters and result.
   */
  lemma ReplyRelay(w: WorkerReturn)
    requires |WorkerReturnBytes(w)| < TWO32
    ensures DecodeWorkerReturn(WorkerReturnBytes(w)) == Ok(w)
    ensures ClientDecodePack(FrameBytes(CONN_TYPE_SERVER, PDT_S_RETURN_DATA, ServerReturnBytes(Back(w))))
            == Ok(Answer(Back(w)))
  {
    hide WorkerReturnBytes, ServerReturnBytes, FrameBytes, DecodeWorkerReturn, ParseServerReturn, Open, Fit, Starts;
    WholeStarts(WorkerReturnBytes(w));
    WorkerReturnIff(WorkerReturnBytes(w), w);
    var s := Back(w);
    OpenFrame(CONN_TYPE_SERVER, PDT_S_RETURN_DATA, ServerReturnBytes(s));
    WholeStarts(ServerReturnBytes(s));
    ServerReturnIff(ServerReturnBytes(s), s);
  }

  // ---------------------------------------------------------------- the programs in a row

  /** The client's side and the server's reading of it. */
  method SendJob(ptype: uint32, htype: uint32, handle: Bytes, params: Bytes) returns (r: Result<ServerRequest>)
    ensures 16 + |handle| + |params| <= MAX_FRAME_SIZE ==>
            r.Ok? && fresh(r.value) && r.value.HoldsJob(DoJob(ptype, htype, handle, params))
  {
    hide Fit, U32, DoJobBytes, FrameBytes, ReadFrame, DecodeDoJob;
    ghost var d := DoJob(ptype, htype, handle, params);
    if 16 + |handle| + |params| <= MAX_FRAME_SIZE { JobArrives(d); }
    var req := new ClientRequest(ptype, htype);
    var content :- req.ContentPack(PDT_C_DO_JOB, handle, params);
    var data :- EncodePack(CONN_TYPE_CLIENT, req.DataType, req.DataLen, req.Data);
    var frame :- ReadFrame(data);
    var got := new ServerRequest(U32(frame.dataType), frame.payload);
    var _ :- got.ReqDecodePack();
    return Ok(got);
  }

  lemma JobArrives(d: DoJob)
    requires d.ParamsType < TWO32 && d.ParamsHandleType < TWO32 && |DoJobBytes(d)| <= MAX_FRAME_SIZE
    ensures ReadFrame(FrameBytes(CONN_TYPE_CLIENT, PDT_C_DO_JOB, DoJobBytes(d)))
            == Ok(Frame(CONN_TYPE_CLIENT, PDT_C_DO_JOB, DoJobBytes(d), []))
    ensures DecodeDoJob(DoJobBytes(d)) == Ok(d)
  {
    hide DoJobBytes, DecodeDoJob, Fit, ReadFrame;
    var f := FrameBytes(CONN_TYPE_CLIENT, PDT_C_DO_JOB, DoJobBytes(d));
    assert f + [] == f;
    ReadFrameIff(f, Frame(CONN_TYPE_CLIENT, PDT_C_DO_JOB, DoJobBytes(d), []));
    WholeStarts(DoJobBytes(d));
    DoJobIff(DoJobBytes(d), d);
  }

  /** The server's sending of the job and the worker's reading of it. */
  method ForwardJob(g: GetData) returns (r: Result<WorkerMsg>)
    ensures g.ParamsType < TWO32 && g.ParamsHandleType < TWO32 && |GetDataBytes(g)| < TWO32 ==> r == Ok(Job(g))
  {
    hide Fit, U32, FrameBytes, WorkerDecodePack;
    if g.ParamsType < TWO32 && g.ParamsHandleType < TWO32 && |GetDataBytes(g)| < TWO32 {
      RequestRelay(DoJob(g.ParamsType, g.ParamsHandleType, g.Handle, g.Params), g.JobId);
    }
    var res := new ServerResponse(g);
    var data :- res.ResEncodePack();
    return WorkerDecodePack(data);
  }

  /** From the client's call to the worker's job. */
  method CarryRequest(ptype: uint32, htype: uint32, handle: Bytes, params: Bytes, jobId: Bytes)
    returns (r: Result<WorkerMsg>)
    ensures 16 + |handle| + |params| <= MAX_FRAME_SIZE && |jobId| < MAX_FRAME_SIZE ==>
            r == Ok(Job(GetData(ptype, htype, handle, params, jobId)))
  {
    var req :- SendJob(ptype, htype, handle, params);
    r := ForwardJob(GetData(req.ParamsType, req.ParamsHandleType, req.Handle, req.Params, jobId));
  }

  // ---------------------------------------------------------------- and back

  lemma ResultArrives(w: WorkerReturn)
    requires |WorkerReturnBytes(w)| <= MAX_FRAME_SIZE
    ensures ReadFrame(FrameBytes(CONN_TYPE_WORKER, PDT_W_RETURN_DATA, WorkerReturnBytes(w)))
            == Ok(Frame(CONN_TYPE_WORKER, PDT_W_RETURN_DATA, WorkerReturnBytes(w), []))
  {
    hide WorkerReturnBytes, Fit, ReadFrame;
    var f := FrameBytes(CONN_TYPE_WORKER, PDT_W_RETURN_DATA, WorkerReturnBytes(w));
    assert f + [] == f;
    ReadFrameIff(f, Frame(CONN_TYPE_WORKER, PDT_W_RETURN_DATA, WorkerReturnBytes(w), []));
  }

  /** The worker's side and the server's reading of it. */
  method SendResult(g: GetData, ret: Bytes) returns (r: Result<ServerRequest>)
    requires GetData32(g)
    ensures 16 + |g.Handle| + |g.Params| + |ret| + |g.JobId| <= MAX_FRAME_SIZE ==>
              r.Ok? && fresh(r.value) && r.value.HoldsReturn(WorkerReturn(g.Handle, g.Params, ret, g.JobId))
  {
    hide Fit, U32, WorkerReturnBytes, FrameBytes, ReadFrame, DecodeWorkerReturn;
    if 16 + |g.Handle| + |g.Params| + |ret| + |g.JobId| <= MAX_FRAME_SIZE {
      ResultArrives(WorkerReturn(g.Handle, g.Params, ret, g.JobId));
      ReplyRelay(WorkerReturn(g.Handle, g.Params, ret, g.JobId));
    }
    var req := new WorkerRequest(g);
    var content :- req.RetPack(ret);
    var data :- EncodePack(CONN_TYPE_WORKER, req.DataType, req.DataLen, req.Data);
    var frame :- ReadFrame(data);
    var got := new ServerRequest(U32(frame.dataType), frame.payload);
    var _ :- got.ReqDecodePack();
    return Ok(got);
  }

  /** The server's answer and the client's reading of it; a result that does not match the job's response is dropped. */
  method AnswerClient(job: ServerResponse, got: ServerRequest) returns (r: Result<ClientMsg>)
    ensures && job.HandleLen == |job.Handle| && job.ParamsLen == |job.Params| && got.Handle == job.Handle
            && got.HandleLen == job.HandleLen && got.ParamsLen == job.ParamsLen && got.RetLen == |got.Ret|
            && 12 + |job.Handle| + |job.Params| + |got.Ret| < TWO32 - 4 ==>
              r == Ok(Answer(ServerReturn(job.Handle, job.Params, got.Ret)))
  {
    hide Fit, FrameBytes, ClientDecodePack;
    if got.HandleLen != job.HandleLen || got.Handle != job.Handle || got.ParamsLen != job.ParamsLen { return Err; }
    if 12 + |job.Handle| + |job.Params| + |got.Ret| < TWO32 - 4 {
      ReplyRelay(WorkerReturn(job.Handle, job.Params, got.Ret, []));
    }
    var res := new ServerResponse.Return(job, got.Ret, got.RetLen);
    var data :- res.ResEncodePack();
    return ClientDecodePack(data);
  }

  /** From the worker's result to the client's answer, for a job the server had sent. */
  method CarryReply(g: GetData, ret: Bytes) returns (r: Result<ClientMsg>)
    requires GetData32(g)
    ensures 16 + |g.Handle| + |g.Params| + |ret| + |g.JobId| <= MAX_FRAME_SIZE ==>
            r == Ok(Answer(ServerReturn(g.Handle, g.Params, ret)))
  {
    hide U32;
    var job := new ServerResponse(g);
    var got :- SendResult(g, ret);
    r := AnswerClient(job, got);
  }
}
