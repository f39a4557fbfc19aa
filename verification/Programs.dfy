/** The packing and unpacking code of client, server and worker, and a job's way through the three programs. */
module Programs {
  import opened Bytes
  import opened Protocol
  import opened Layout
  import opened Wire

  // ---------------------------------------------------------------- client

  class ClientRequest {
    var DataType: uint32
    var Data: Bytes
    var DataLen: uint32
    var Handle: Bytes
    var HandleLen: uint32
    var ParamsType: uint32
    var ParamsHandleType: uint32
    var ParamsLen: uint32
    var Params: Bytes

    constructor (ptype: uint32, htype: uint32)
      ensures ParamsType == ptype && ParamsHandleType == htype
    {
      DataType, Data, DataLen, Handle, HandleLen, ParamsLen, Params := 0, [], 0, [], 0, 0, [];
      ParamsType, ParamsHandleType := ptype, htype;
    }

    /** Lengths are kept in 32 bits: longer fields are cut, and the packing panics when the total does not fit. */
    method ContentPack(dataType: uint32, handle: Bytes, params: Bytes) returns (r: Result<Bytes>)
      modifies this
      ensures r == if 16 + U32(|handle|) + U32(|params|) < TWO32
                   then Ok(DoJobBytes(DoJob(ParamsType, ParamsHandleType, Fit(handle, U32(|handle|)),
                                            Fit(params, U32(|params|)))))
                   else Panic
      ensures r.Ok? ==> DataType == dataType && Data == r.value && DataLen == |r.value|
      ensures ParamsType == old(ParamsType) && ParamsHandleType == old(ParamsHandleType)
      ensures Handle == handle && HandleLen == U32(|handle|) && Params == params && ParamsLen == U32(|params|)
    {
      hide U32, Fit, DoJobBytes;
      DataType, Handle, HandleLen, Params, ParamsLen := dataType, handle, U32(|handle|), params, U32(|params|);
      DataLen := U32(16 + HandleLen + ParamsLen);
      r := FillDoJob(ParamsType, ParamsHandleType, handle, HandleLen, params, ParamsLen);
      if r.Ok? { Data := r.value; }
    }
  }

  /** Filling the buffer of a job. */
  method FillDoJob(ptype: uint32, htype: uint32, handle: Bytes, hlen: uint32, params: Bytes, plen: uint32)
    returns (r: Result<Bytes>)
    ensures r == if 16 + hlen + plen < TWO32
                 then Ok(DoJobBytes(DoJob(ptype, htype, Fit(handle, hlen), Fit(params, plen))))
                 else Panic
  {
    hide W32, U32, Fit;
    var content := new Packer(U32(16 + hlen + plen));
    Cannot(16 + hlen + plen);
    content.PutWord(ptype);
    NothingBefore([], ptype);
    content.PutWord(htype);
    content.PutWord(hlen);
    content.Put(handle, hlen);
    content.PutWord(plen);
    content.Put(params, plen);
    r := content.Finish();
  }

  /** A total fits its own low 32 bits only when it is below 2^32. */
  lemma Cannot(n: nat)
    ensures n <= U32(n) <==> n < TWO32
  {
  }

  /**
   The header in front of the packed data; client and worker differ in the connection type only. The 32-bit
   length panics when it wraps.
   */
  method EncodePack(connType: uint32, dataType: uint32, dataLen: uint32, data: Bytes) returns (r: Result<Bytes>)
    ensures r == if HEADER_SIZE + dataLen < TWO32 then Ok(FrameBytes(connType, dataType, Fit(data, dataLen))) else Panic
  {
    hide W32, Fit;
    var out := new Packer(U32(HEADER_SIZE + dataLen));
    out.PutWord(connType);
    NothingBefore([], connType);
    out.PutWord(dataType);
    out.PutWord(dataLen);
    if !out.ok { return Panic; }
    out.Put(data, out.content.Length - out.end);
    r := out.Finish();
  }

  // ---------------------------------------------------------------- server

  datatype Unit = Unit

  /** A result and a job id can be read at `start`. */
  predicate EndsOk(b: Bytes, start: nat)
  {
    ReadSized(b, start).Ok? && ReadWord(b, start + 4 + |ReadSized(b, start).value|).Ok?
  }

  predicate EndsIn(b: Bytes, start: nat, ret: Bytes, jobId: Bytes)
  {
    && EndsOk(b, start) && ret == ReadSized(b, start).value
    && var at := start + 4 + |ret|; at + 4 <= |b| && jobId == Fit(b[at + 4..], ReadWord(b, at).value)
  }

  lemma ReturnParts(b: Bytes)
    ensures var w, h := DecodeWorkerReturn(b), ReadSized(b, 0);
            if !h.Ok? then !w.Ok? else
              var p := ReadSized(b, 4 + |h.value|);
              if !p.Ok? then !w.Ok? else
                var at := 8 + |h.value| + |p.value|;
                && (w.Ok? <==> EndsOk(b, at))
                && forall ret, jobId :: EndsIn(b, at, ret, jobId) ==>
                w == Ok(WorkerReturn(h.value, p.value, ret, jobId))
  {
    hide Fit, ReadWord, ReadSized;
  }

  class ServerRequest {
    var DataType: uint32
    var Data: Bytes
    var DataLen: uint32
    var Handle: Bytes
    var HandleLen: uint32
    var ParamsType: uint32
    var ParamsHandleType: uint32
    var ParamsLen: uint32
    var Params: Bytes
    var JobId: Bytes
    var JobIdLen: uint32
    var Ret: Bytes
    var RetLen: uint32

    constructor (dataType: uint32, payload: Bytes)
      ensures DataType == dataType && Data == payload && DataLen == U32(|payload|)
    {
      DataType, Data, DataLen := dataType, payload, U32(|payload|);
      Handle, HandleLen, ParamsType, ParamsHandleType, ParamsLen, Params := [], 0, 0, 0, 0, [];
      JobId, JobIdLen, Ret, RetLen := [], 0, [], 0;
    }

    predicate HoldsJob(d: DoJob)
      reads this
    {
      && ParamsType == d.ParamsType && ParamsHandleType == d.ParamsHandleType
      && Handle == d.Handle && HandleLen == |d.Handle| && Params == d.Params && ParamsLen == |d.Params|
    }

    predicate HoldsReturn(w: WorkerReturn)
      reads this
    {
      && Handle == w.Handle && HandleLen == |w.Handle| && Params == w.Params && ParamsLen == |w.Params|
      && Ret == w.Ret && RetLen == |w.Ret| && JobId == w.JobId && JobIdLen == |w.JobId|
    }

    predicate Decodable()
      reads this
    {
      DataLen > 0 && |Data| > 0 && DataLen == U32(|Data|)
    }

    /** Empty data, a wrong length and other types leave the request as it is. */
    method ReqDecodePack() returns (r: Result<Unit>)
      modifies this
      ensures old(DataLen == 0 || Data == [] || DataLen != |Data| % TWO32) || (DataType != 16 && DataType != 15) ==>
              r.Ok? && unchanged(this)
      ensures DataType == old(DataType) && Data == old(Data) && DataLen == old(DataLen) && !r.Err?
      ensures old(Decodable()) && DataType == PDT_C_DO_JOB ==>
                var d := DecodeDoJob(Data); (r.Ok? <==> d.Ok?) && (r.Ok? ==> HoldsJob(d.value))
      ensures old(Decodable()) && DataType == PDT_W_RETURN_DATA ==>
                var w := DecodeWorkerReturn(Data); (r.Ok? <==> w.Ok?) && (r.Ok? ==> HoldsReturn(w.value))
    {
      hide Fit, ReadWord, ReadBytes;
      if !Decodable() { return Ok(Unit); }
      if DataType == PDT_W_RETURN_DATA {
        r := DecodeReturn();
      } else if DataType == PDT_C_DO_JOB {
        r := DecodeJob();
      } else {
        r := Ok(Unit);
      }
    }

    method DecodeJob() returns (r: Result<Unit>)
      modifies this`ParamsType, this`ParamsHandleType, this`Handle, this`HandleLen, this`Params, this`ParamsLen
      ensures !r.Err?
      ensures var d := DecodeDoJob(Data); (r.Ok? <==> d.Ok?) && (r.Ok? ==> HoldsJob(d.value))
    {
      hide Fit, ReadWord, ReadBytes;
      ParamsType :- ReadWord(Data, 0);
      var start := 4;
      var end := start + 4;
      ParamsHandleType :- ReadWord(Data, start);
      start := end;
      end := start + 4;
      HandleLen :- ReadWord(Data, start);
      start := end;
      end := start + HandleLen;
      Handle :- ReadBytes(Data, start, HandleLen);
      start := end;
      end := start + 4;
      ParamsLen :- ReadWord(Data, start);
      start := end;
      Params := Fit(Data[start..], ParamsLen);
      return Ok(Unit);
    }

    method DecodeReturn() returns (r: Result<Unit>)
      modifies this`Handle, this`HandleLen, this`Params, this`ParamsLen, this`Ret, this`RetLen, this`JobId,
               this`JobIdLen
      ensures !r.Err?
      ensures var w := DecodeWorkerReturn(Data); (r.Ok? <==> w.Ok?) && (r.Ok? ==> HoldsReturn(w.value))
    {
      hide Fit, ReadWord, ReadSized, DecodeWorkerReturn, EndsOk, EndsIn;
      ReturnParts(Data);
      var handle :- ReadSized(Data, 0);
      Handle, HandleLen := handle, |handle|;
      var start := 4 + |handle|;
      var params :- ReadSized(Data, start);
      Params, ParamsLen := params, |params|;
      r := DecodeRet(start + 4 + |params|);
    }

    /** The result and the job id, which lie behind the parameters. */
    method DecodeRet(start: nat) returns (r: Result<Unit>)
      modifies this`Ret, this`RetLen, this`JobId, this`JobIdLen
      ensures !r.Err?
      ensures r.Ok? <==> EndsOk(Data, start)
      ensures r.Ok? ==> EndsIn(Data, start, Ret, JobId) && RetLen == |Ret| && JobIdLen == |JobId|
    {
      hide Fit, ReadWord, ReadSized;
      var ret :- ReadSized(Data, start);
      Ret, RetLen := ret, |ret|;
      var at := start + 4 + |ret|;
      var jlen :- ReadWord(Data, at);
      JobIdLen, JobId := jlen, Fit(Data[at + 4..], jlen);
      return Ok(Unit);
    }
  }

  class ServerResponse {
    var DataType: uint32
    var Data: Bytes
    var DataLen: uint32
    var Handle: Bytes
    var HandleLen: uint32
    var ParamsType: uint32
    var ParamsHandleType: uint32
    var ParamsLen: uint32
    var Params: Bytes
    var JobId: Bytes
    var JobIdLen: uint32
    var Ret: Bytes
    var RetLen: uint32

    /** The response that carries a job to its worker. */
    constructor (g: GetData)
      ensures DataType == PDT_S_GET_DATA && ParamsType == U32(g.ParamsType)
              && ParamsHandleType == U32(g.ParamsHandleType)
      ensures Handle == g.Handle && HandleLen == U32(|g.Handle|) && Params == g.Params && ParamsLen == U32(|g.Params|)
      ensures JobId == g.JobId && JobIdLen == U32(|g.JobId|)
    {
      DataType, Data, DataLen, Ret, RetLen := PDT_S_GET_DATA, [], 0, [], 0;
      Handle, HandleLen, ParamsType, ParamsHandleType :=
        g.Handle, U32(|g.Handle|), U32(g.ParamsType), U32(g.ParamsHandleType);
      Params, ParamsLen, JobId, JobIdLen := g.Params, U32(|g.Params|), g.JobId, U32(|g.JobId|);
    }

    /** The response that carries a result to the client: handle and parameters are those of the job's own response. */
    constructor Return(job: ServerResponse, ret: Bytes, rlen: uint32)
      ensures DataType == PDT_S_RETURN_DATA && Ret == ret && RetLen == rlen
      ensures Handle == job.Handle && HandleLen == job.HandleLen && Params == job.Params && ParamsLen == job.ParamsLen
    {
      DataType, Data, DataLen, Ret, RetLen := PDT_S_RETURN_DATA, job.Data, job.DataLen, ret, rlen;
      Handle, HandleLen, ParamsType, ParamsHandleType :=
        job.Handle, job.HandleLen, job.ParamsType, job.ParamsHandleType;
      Params, ParamsLen, JobId, JobIdLen := job.Params, job.ParamsLen, job.JobId, job.JobIdLen;
    }

    function Job(): GetData
      reads this
    {
      GetData(ParamsType, ParamsHandleType, Fit(Handle, HandleLen), Fit(Params, ParamsLen), Fit(JobId, JobIdLen))
    }

    function Answer(): ServerReturn
      reads this
    {
      ServerReturn(Fit(Handle, HandleLen), Fit(Params, ParamsLen), Fit(Ret, RetLen))
    }

    /**
     The content of a job for a worker or a result for a client; every other response has none. Totals of
     2^32 and more panic.
     */
    function Content(): Result<Bytes>
      reads this
    {
      if DataType == PDT_S_GET_DATA then
        if 20 + HandleLen + ParamsLen + JobIdLen < TWO32 then Ok(GetDataBytes(Job())) else Panic
      else if DataType == PDT_S_RETURN_DATA then
        if 12 + HandleLen + ParamsLen + RetLen < TWO32 then Ok(ServerReturnBytes(Answer())) else Panic
      else Ok([])
    }

    method GetResContent() returns (r: Result<Bytes>)
      ensures r == Content()
    {
      hide W32, Fit;
      if DataType == PDT_S_GET_DATA {
        r := FillGetData(ParamsType, ParamsHandleType, Handle, HandleLen, Params, ParamsLen, JobId, JobIdLen);
      } else if DataType == PDT_S_RETURN_DATA {
        r := FillServerReturn(Handle, HandleLen, Params, ParamsLen, Ret, RetLen);
      } else {
        r := Ok([]);
      }
    }

    /** A server frame around the content. */
    method ResEncodePack() returns (r: Result<Bytes>)
      modifies this`DataLen, this`Data
      ensures r == if Content().Ok? then Ok(FrameBytes(CONN_TYPE_SERVER, DataType, Content().value)) else Panic
      ensures DataType != 10 && DataType != 11 ==> r == Ok(FrameBytes(1, DataType, []))
      ensures r.Ok? ==> DataLen == U32(|r.value|) && Data == if |r.value| > 12 then r.value else old(Data)
    {
      hide W32, Fit, GetDataBytes, ServerReturnBytes;
      var content :- GetResContent();
      DataLen := U32(HEADER_SIZE + |content|);
      r := Enclose(DataType, content);
      if |content| > 0 { Data := r.value; }
    }
  }

  /** Filling the buffer of a job for a worker; the last copy takes what room is left. */
  method FillGetData(ptype: uint32, htype: uint32, handle: Bytes, hlen: uint32, params: Bytes, plen: uint32,
                     jobId: Bytes, jlen: uint32)
    returns (r: Result<Bytes>)
    ensures r == if 20 + hlen + plen + jlen < TWO32
                 then Ok(GetDataBytes(GetData(ptype, htype, Fit(handle, hlen), Fit(params, plen), Fit(jobId, jlen))))
                 else Panic
  {
    hide W32, U32, Fit;
    var content := new Packer(U32(20 + hlen + plen + jlen));
    content.PutWord(ptype);
    NothingBefore([], ptype);
    content.PutWord(htype);
    content.PutWord(hlen);
    content.PutWord(plen);
    content.PutWord(jlen);
    content.Put(handle, hlen);
    content.Put(params, plen);
    r := Last(content, 20 + hlen + plen, jobId, jlen);
  }

  method FillServerReturn(handle: Bytes, hlen: uint32, params: Bytes, plen: uint32, ret: Bytes, rlen: uint32)
    returns (r: Result<Bytes>)
    ensures r == if 12 + hlen + plen + rlen < TWO32
                 then Ok(ServerReturnBytes(ServerReturn(Fit(handle, hlen), Fit(params, plen), Fit(ret, rlen))))
                 else Panic
  {
    hide W32, U32, Fit;
    var content := new Packer(U32(12 + hlen + plen + rlen));
    content.PutWord(hlen);
    NothingBefore([], hlen);
    content.PutWord(plen);
    content.PutWord(rlen);
    content.Put(handle, hlen);
    content.Put(params, plen);
    r := Last(content, 12 + hlen + plen, ret, rlen);
  }

  /** The copy into the rest of the buffer. */
  method Last(content: Packer, used: nat, src: Bytes, n: uint32) returns (r: Result<Bytes>)
    requires content.Valid() && content.content.Length == U32(used + n)
    requires content.ok <==> used <= content.content.Length
    requires content.ok ==> content.end == used
    modifies content, content.content
    ensures r == if used + n < TWO32 then Ok(old(content.done) + Fit(src, n)) else Panic
  {
    hide W32, Fit;
    if !content.ok { return Panic; }
    content.Put(src, content.content.Length - content.end);
    r := content.Finish();
  }

  method Enclose(dataType: uint32, content: Bytes) returns (r: Result<Bytes>)
    ensures r == Ok(FrameBytes(CONN_TYPE_SERVER, dataType, content))
  {
    hide W32;
    var resData := new Packer(HEADER_SIZE + |content|);
    resData.PutWord(CONN_TYPE_SERVER);
    NothingBefore([], CONN_TYPE_SERVER);
    resData.PutWord(dataType);
    resData.PutWord(|content|);
    resData.Put(content, |content|);
    r := resData.Finish();
  }

  // ---------------------------------------------------------------- worker

  class WorkerRequest {
    var DataType: uint32
    var Data: Bytes
    var DataLen: uint32
    var Handle: Bytes
    var HandleLen: uint32
    var Params: Bytes
    var ParamsLen: uint32
    var JobId: Bytes
    var JobIdLen: uint32
    var Ret: Bytes
    var RetLen: uint32

    /** The request a worker answers a job with: handle, parameters and job id are the job's. */
    constructor (g: GetData)
      requires GetData32(g)
      ensures Handle == g.Handle && HandleLen == |g.Handle| && Params == g.Params && ParamsLen == |g.Params|
      ensures JobId == g.JobId && JobIdLen == |g.JobId|
    {
      DataType, Data, DataLen, Ret, RetLen := 0, [], 0, [], 0;
      Handle, HandleLen, Params, ParamsLen, JobId, JobIdLen :=
        g.Handle, |g.Handle|, g.Params, |g.Params|, g.JobId, |g.JobId|;
    }

    method RetPack(ret: Bytes) returns (r: Result<Bytes>)
      modifies this`Ret, this`RetLen, this`DataType, this`DataLen, this`Data
      ensures r == if 16 + HandleLen + ParamsLen + U32(|ret|) + JobIdLen < TWO32
                   then Ok(WorkerReturnBytes(WorkerReturn(Fit(Handle, HandleLen), Fit(Params, ParamsLen),
                                                          Fit(ret, U32(|ret|)), Fit(JobId, JobIdLen))))
                   else Panic
      ensures r.Ok? ==> DataType == PDT_W_RETURN_DATA && Data == r.value && DataLen == |r.value|
      ensures Ret == ret && RetLen == U32(|ret|)
    {
      hide W32, U32, Fit, WorkerReturnBytes;
      Ret, RetLen, DataType := ret, U32(|ret|), PDT_W_RETURN_DATA;
      DataLen := U32(16 + HandleLen + ParamsLen + RetLen + JobIdLen);
      r := FillReturn(Handle, HandleLen, Params, ParamsLen, ret, RetLen, JobId, JobIdLen);
      if r.Ok? { Data := r.value; }
    }
  }

  /** Filling the buffer of a result. */
  method FillReturn(handle: Bytes, hlen: uint32, params: Bytes, plen: uint32, ret: Bytes, rlen: uint32, jobId: Bytes,
                    jlen: uint32)
    returns (r: Result<Bytes>)
    ensures r == if 16 + hlen + plen + rlen + jlen < TWO32
                 then Ok(WorkerReturnBytes(WorkerReturn(Fit(handle, hlen), Fit(params, plen), Fit(ret, rlen),
                                                        Fit(jobId, jlen))))
                 else Panic
  {
    hide W32, U32, Fit;
    var content := new Packer(U32(16 + hlen + plen + rlen + jlen));
    Cannot(16 + hlen + plen + rlen + jlen);
    content.PutWord(hlen);
    NothingBefore([], hlen);
    content.Put(handle, hlen);
    content.PutWord(plen);
    content.Put(params, plen);
    content.PutWord(rlen);
    content.Put(ret, rlen);
    content.PutWord(jlen);
    content.Put(jobId, jlen);
    r := content.Finish();
  }
}
