/** The direct protocol between a client and a service: frames, calls and replies. */
module DirectProto {
  import opened Bytes
  import opened Protocol
  import opened Layout

  datatype Call = Call(Service: Bytes, Payload: Bytes)
  datatype Reply = Reply(Status: nat, Data: Bytes)

  // ---------------------------------------------------------------- layouts

  function CallBytes(c: Call): (r: Bytes)
    ensures |r| == 8 + |c.Service| + |c.Payload|
  {
    W32(|c.Service|) + c.Service + W32(|c.Payload|) + c.Payload
  }

  function ReplyBytes(p: Reply): (r: Bytes)
    ensures |r| == 8 + |p.Data|
  {
    W32(p.Status) + W32(|p.Data|) + p.Data
  }

  // ---------------------------------------------------------------- packing

  method PackFrame(connType: nat, dataType: nat, content: Bytes) returns (r: Result<Bytes>)
    ensures r == Ok(FrameBytes(connType, dataType, content))
  {
    hide W32;
    var out := new Packer(HEADER_SIZE + |content|);
    out.PutWord(connType);
    assert [] + W32(connType) == W32(connType);
    out.PutWord(dataType);
    out.PutWord(|content|);
    out.Put(content, |content|);
    r := out.Finish();
  }

  method PackCall(service: Bytes, payload: Bytes) returns (r: Result<Bytes>)
    ensures r == Ok(CallBytes(Call(service, payload)))
  {
    hide W32;
    var out := new Packer(4 + |service| + 4 + |payload|);
    out.PutWord(|service|);
    assert [] + W32(|service|) == W32(|service|);
    out.Put(service, |service|);
    out.PutWord(|payload|);
    out.Put(payload, |payload|);
    r := out.Finish();
  }

  method PackReply(status: nat, data: Bytes) returns (r: Result<Bytes>)
    ensures r == Ok(ReplyBytes(Reply(status, data)))
  {
    hide W32;
    var out := new Packer(4 + 4 + |data|);
    out.PutWord(status);
    assert [] + W32(status) == W32(status);
    out.PutWord(|data|);
    out.Put(data, |data|);
    r := out.Finish();
  }

  // ---------------------------------------------------------------- unpacking

  function UnpackCall(content: Bytes): (r: Result<Call>)
    ensures !r.Panic?
    ensures r.Ok? ==> |r.value.Service| < TWO32 && |r.value.Payload| < TWO32 && Starts(content, CallBytes(r.value))
  {
    hide W32;
    if |content| < 8 then Err else
      assert content[..0] + W32(ReadWord(content, 0).value) == W32(ReadWord(content, 0).value);
      var slen := ReadWord(content, 0).value;
      if 4 + slen + 4 > |content| then Err else
        var service := ReadBytes(content, 4, slen).value;
        var off := 4 + slen;
        var plen := ReadWord(content, off).value;
        if off + 4 + plen > |content| then Err else
          var payload := ReadBytes(content, off + 4, plen).value;
          Ok(Call(service, payload))
  }

  function UnpackReply(content: Bytes): (r: Result<Reply>)
    ensures !r.Panic?
    ensures r.Ok? ==> r.value.Status < TWO32 && |r.value.Data| < TWO32 && Starts(content, ReplyBytes(r.value))
  {
    hide W32;
    if |content| < 8 then Err else
      assert content[..0] + W32(ReadWord(content, 0).value) == W32(ReadWord(content, 0).value);
      var status := ReadWord(content, 0).value;
      var dlen := ReadWord(content, 4).value;
      if 8 + dlen > |content| then Err else
        var data := ReadBytes(content, 8, dlen).value;
        Ok(Reply(status, data))
  }

  /** A call is read exactly when the input is that call packed, followed by anything. */
  lemma CallIff(content: Bytes, c: Call)
    ensures UnpackCall(content) == Ok(c) <==>
            |c.Service| < TWO32 && |c.Payload| < TWO32 && Starts(content, CallBytes(c))
  {
    if |c.Service| < TWO32 && |c.Payload| < TWO32 && Starts(content, CallBytes(c)) {
      hide W32, ReadWord, ReadBytes, Starts;
      var s, p := c.Service, c.Payload;
      BytesThere(content, W32(|s|) + s + W32(|p|), p);
      WordThere(content, W32(|s|) + s, |p|);
      BytesThere(content, W32(|s|), s);
      assert [] + W32(|s|) == W32(|s|);
      WordThere(content, [], |s|);
      Long(content, CallBytes(c));
    }
  }

  /** The same for replies. */
  lemma ReplyIff(content: Bytes, p: Reply)
    ensures UnpackReply(content) == Ok(p) <==> p.Status < TWO32 && |p.Data| < TWO32 && Starts(content, ReplyBytes(p))
  {
    if p.Status < TWO32 && |p.Data| < TWO32 && Starts(content, ReplyBytes(p)) {
      hide W32, ReadWord, ReadBytes, Starts;
      BytesThere(content, W32(p.Status) + W32(|p.Data|), p.Data);
      WordThere(content, W32(p.Status), |p.Data|);
      assert [] + W32(p.Status) == W32(p.Status);
      WordThere(content, [], p.Status);
      Long(content, ReplyBytes(p));
    }
  }
}
