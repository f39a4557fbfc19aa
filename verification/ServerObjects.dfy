/**
 The server's objects as they are written: a connection with its write queue, a worker with its job
 channels. Each call, taken without interruption, is a sequence of events of the step protocols.
 */
module ServerObjects {
  import opened Bytes
  import WriteQueue
  import opened Dispatch

  // ---------------------------------------------------------------- a connection

  /** The events take the connection from one state to the other. */
  ghost predicate Takes(c: WriteQueue.Conn, es: seq<WriteQueue.Event>, c': WriteQueue.Conn)
  {
    if es == [] then c == c'
    else
      var n := |es| - 1;
      exists m :: Takes(c, es[..n], m) && WriteQueue.Step(m, es[n], c')
  }

  lemma TakesMore(c: WriteQueue.Conn, es: seq<WriteQueue.Event>, m: WriteQueue.Conn, e: WriteQueue.Event,
                  c': WriteQueue.Conn)
    requires Takes(c, es, m) && WriteQueue.Step(m, e, c')
    ensures Takes(c, es + [e], c')
  {
    hide WriteQueue.Step;
    assert (es + [e])[..|es|] == es && (es + [e])[|es|] == e;
  }

  class Connect {
    const maxPendingBytes: nat
    var pendingBytes: int
    var closed: bool
    var open: bool                    // Conn is not nil
    var writeCh: seq<Bytes>
    var RunWorker: SWorker?
    ghost var view: WriteQueue.Conn   // the connection in the protocol
    ghost var took: seq<WriteQueue.Event>   // the events of the last call

    ghost predicate Valid()
      reads this
    {
      && view.max == maxPendingBytes && view.pending == pendingBytes && view.closed == closed && view.queue == writeCh
      && forall i :: 0 <= i < |writeCh| ==> writeCh[i] != []
    }

    constructor (max: nat)
      ensures Valid() && open && RunWorker == null && view == WriteQueue.Fresh(max)
    {
      maxPendingBytes, pendingBytes, closed, open, writeCh, RunWorker := max, 0, false, true, [], null;
      view, took := WriteQueue.Fresh(max), [];
    }

    /** The protocol takes one more event of the call that began in state `was`. */
    ghost method Take(was: WriteQueue.Conn, e: WriteQueue.Event)
      requires WriteQueue.Enabled(view, e) && Takes(was, took, view)
      modifies this`view, this`took
      ensures view == WriteQueue.Apply(old(view), e) && took == old(took) + [e] && Takes(was, took, view)
    {
      hide WriteQueue.Enabled, WriteQueue.Apply;
      TakesMore(was, took, view, e, WriteQueue.Apply(view, e));
      view, took := WriteQueue.Apply(view, e), took + [e];
    }

    ghost method StartCall()
      modifies this`took
      ensures took == [] && Takes(view, took, view)
    {
      took := [];
    }

    method CloseSignal()
      requires Valid()
      modifies this`closed, this`view, this`took
      ensures Valid() && closed && took == [WriteQueue.Close] && Takes(old(view), took, view)
    {
      ghost var was := view;
      StartCall();
      closed := true;
      Take(was, WriteQueue.Close);
    }

    /** The events of a call of `Write`; `i` is the place of the caller among the writers. */
    function WriteEvents(resPack: Bytes, i: nat): seq<WriteQueue.Event>
      reads this
    {
      if closed || !open || resPack == [] then []
      else if pendingBytes + |resPack| > maxPendingBytes then [WriteQueue.Reserve(resPack), WriteQueue.RollBack(i)]
      else if |writeCh| < WriteQueue.QUEUE_CAPACITY then [WriteQueue.Reserve(resPack), WriteQueue.Enqueue(i)]
      else [WriteQueue.Reserve(resPack), WriteQueue.FindFull(i), WriteQueue.RollBack(i)]
    }

    /** Reserve, then enqueue or roll back. */
    method Write(resPack: Bytes) returns (ok: bool)
      requires Valid()
      modifies this`pendingBytes, this`writeCh, this`view, this`took
      ensures Valid() && took == old(WriteEvents(resPack, |view.writers|)) && Takes(old(view), took, view)
      ensures closed || !open || resPack == [] ==> ok == (!closed && open)
      ensures !closed && open && resPack != [] ==>
                && ok == (old(pendingBytes) + |resPack| <= maxPendingBytes && |old(writeCh)| < 256)
                && writeCh == (if ok then old(writeCh) + [resPack] else old(writeCh))
                && pendingBytes == (if ok then old(pendingBytes) + |resPack| else old(pendingBytes))
                && view.accepted == (if ok then old(view).accepted + [resPack] else old(view).accepted)
                && view.socket == old(view).socket && view.loop == old(view).loop
    {
      hide Takes;
      ghost var was := view;
      StartCall();
      if closed { return false; }
      if !open { return false; }
      if |resPack| == 0 { return true; }
      var n := |resPack|;
      ghost var i := |view.writers|;
      pendingBytes := pendingBytes + n;
      Take(was, WriteQueue.Reserve(resPack));
      if pendingBytes > maxPendingBytes {
        pendingBytes := pendingBytes - n;
        Take(was, WriteQueue.RollBack(i));
        return false;
      }
      if |writeCh| < WriteQueue.QUEUE_CAPACITY {
        writeCh := writeCh + [resPack];
        Take(was, WriteQueue.Enqueue(i));
        return true;
      }
      Take(was, WriteQueue.FindFull(i));
      pendingBytes := pendingBytes - n;
      Take(was, WriteQueue.RollBack(i));
      return false;
    }

    /** The socket failed, or is gone: the connection closes, the frame is uncounted, the loop ends. */
    method GiveUp(frame: Bytes, n: nat, ghost done: nat, ghost was: WriteQueue.Conn)
      requires Valid() && view.loop == WriteQueue.Writing(frame, done) && done + n <= |frame| && done < |frame|
               && Takes(was, took, view)
      modifies this`pendingBytes, this`closed, this`view, this`took
      ensures Valid() && closed && pendingBytes == old(pendingBytes) - |frame| && Takes(was, took, view)
      ensures view == old(view).(loop := WriteQueue.Exited, closed := true, pending := pendingBytes,
                                 socket := old(view).socket + frame[done..done + n])
    {
      hide Takes;
      Take(was, WriteQueue.WriteError(n));
      closed := true;
      pendingBytes := pendingBytes - |frame|;
      Take(was, WriteQueue.Uncount);
    }

    /** Some bytes went out. */
    ghost method Advance(frame: Bytes, n: nat, done: nat, was: WriteQueue.Conn)
      requires Valid() && view.loop == WriteQueue.Writing(frame, done) && done + n <= |frame| && Takes(was, took, view)
      modifies this`view, this`took
      ensures Valid() && view == old(view).(loop := WriteQueue.Writing(frame, done + n),
                                            socket := old(view).socket + frame[done..done + n])
      ensures Takes(was, took, view)
    {
      hide Takes;
      Take(was, WriteQueue.WriteSome(n));
    }

    /** The frame goes to the socket in as many pieces as the socket takes. */
    method WriteOut(frame: Bytes, ghost was: WriteQueue.Conn) returns (ok: bool)
      requires Valid() && view.loop == WriteQueue.Writing(frame, 0) && Takes(was, took, view)
      modifies this`pendingBytes, this`closed, this`view, this`took
      ensures Valid() && pendingBytes == old(pendingBytes) - (if ok then 0 else |frame|)
              && closed == (old(closed) || !ok) && Takes(was, took, view)
      ensures view == old(view).(loop := view.loop, socket := view.socket, closed := closed, pending := pendingBytes)
      ensures ok ==> view.loop == WriteQueue.Writing(frame, |frame|) && view.socket == old(view).socket + frame
      ensures !ok ==> view.loop == WriteQueue.Exited
                      && exists k :: 0 <= k <= |frame| && view.socket == old(view).socket + frame[..k]
    {
      hide Takes;
      var buf := frame;
      ghost var done, at := 0, view;
      assert frame[..0] == [];
      while |buf| > 0
        invariant 0 <= done <= |frame| && buf == frame[done..] && Valid() && Takes(was, took, view)
        invariant pendingBytes == old(pendingBytes) && closed == old(closed)
        invariant view == at.(loop := WriteQueue.Writing(frame, done), socket := at.socket + frame[..done])
        decreases |buf|
      {
        var n, failed := SocketWrite(buf);
        assert frame[..done + n] == frame[..done] + frame[done..done + n];
        assert at.socket + frame[..done] + frame[done..done + n] == at.socket + frame[..done + n];
        if failed {
          GiveUp(frame, n, done, was);
          return false;
        }
        Advance(frame, n, done, was);
        buf := buf[n..];
        done := done + n;
      }
      assert frame[..done] == frame;
      return true;
    }

    /**
     One turn of the write loop: the head of the queue goes to the socket, or the loop ends because the
     socket fails or is gone.
     */
    method WriteHead() returns (ok: bool)
      requires Valid() && writeCh != [] && view.loop == WriteQueue.Idle
      modifies this`pendingBytes, this`writeCh, this`closed, this`view, this`took
      ensures Valid() && writeCh == old(writeCh)[1..] && pendingBytes == old(pendingBytes) - |old(writeCh)[0]|
              && Takes(old(view), took, view)
      ensures view.accepted == old(view).accepted && view.writers == old(view).writers && (!open ==> !ok)
      ensures ok ==> view.loop == WriteQueue.Idle && view.socket == old(view).socket + old(writeCh)[0]
                     && closed == old(closed)
      ensures !ok ==> view.loop == WriteQueue.Exited && closed
                      && exists k :: 0 <= k <= |old(writeCh)[0]| && (!open ==> k == 0)
                                     && view.socket == old(view).socket + old(writeCh)[0][..k]
    {
      hide Takes;
      ghost var was := view;
      var frame := writeCh[0];
      StartCall();
      writeCh := writeCh[1..];
      Take(was, WriteQueue.TakeFrame);
      if !open {
        GiveUp(frame, 0, 0, was);
        assert frame[..0] == frame[0..0];
        return false;
      }
      ok := WriteOut(frame, was);
      if !ok { return; }
      Take(was, WriteQueue.FinishFrame);
      pendingBytes := pendingBytes - |frame|;
    }
  }

  /** A socket takes some bytes, at least one, or fails after any number. */
  method SocketWrite(buf: Bytes) returns (n: nat, failed: bool)
    requires |buf| > 0
    ensures n <= |buf| && (!failed ==> n > 0)
  {
    var k: nat, f: bool :| k <= |buf| && (!f ==> k > 0);
    return k, f;
  }

  // ---------------------------------------------------------------- a worker and its jobs

  /** The events take the broker from one state to the other. */
  ghost predicate Follows(s: State, es: seq<Event>, s': State)
  {
    if es == [] then s == s'
    else
      var n := |es| - 1;
      exists m :: Follows(s, es[..n], m) && Enabled(m, es[n]) && s' == Apply(m, es[n])
  }

  lemma FollowsMore(s: State, es: seq<Event>, m: State, e: Event)
    requires Follows(s, es, m) && Enabled(m, e)
    ensures Follows(s, es + [e], Apply(m, e))
  {
    hide Enabled, Apply;
    assert (es + [e])[..|es|] == es && (es + [e])[|es|] == e;
  }

  lemma FollowsNothing(s: State, s': State)
    requires Follows(s, [], s')
    ensures s' == s
  {
  }

  lemma FollowsOne(s: State, e: Event, s': State)
    requires Follows(s, [e], s')
    ensures Enabled(s, e) && s' == Apply(s, e)
  {
    hide Enabled, Apply;
    var m :| Follows(s, [e][..0], m) && Enabled(m, e) && s' == Apply(m, e);
    assert [e][..0] == [];
  }

  lemma {:induction false} FollowsJoin(s: State, es: seq<Event>, m: State, fs: seq<Event>, s': State)
    requires Follows(s, es, m) && Follows(m, fs, s')
    ensures Follows(s, es + fs, s')
    decreases |fs|
  {
    hide Enabled, Apply;
    if fs == [] {
      assert es + fs == es;
    } else {
      var n := |fs| - 1;
      var x :| Follows(m, fs[..n], x) && Enabled(x, fs[n]) && s' == Apply(x, fs[n]);
      FollowsJoin(s, es, m, fs[..n], x);
      FollowsMore(s, es + fs[..n], x, fs[n]);
      assert es + fs[..n] + [fs[n]] == es + fs;
    }
  }

  predicate Dispatching(e: Event)
  {
    e.Pick? || e.Push? || e.PushTimeout? || e.Begin? || e.Send? || e.Store?
  }

  lemma InboundStep(s: State, e: Event)
    requires Enabled(s, e) && Dispatching(e)
    ensures Apply(s, e).inbound == s.inbound
  {
  }

  /** Dispatching touches no result. */
  lemma {:induction false} InboundKept(s: State, es: seq<Event>, s': State)
    requires Follows(s, es, s') && forall i :: 0 <= i < |es| ==> Dispatching(es[i])
    ensures s'.inbound == s.inbound
    decreases |es|
  {
    hide Enabled, Apply;
    if es != [] {
      var n := |es| - 1;
      var m :| Follows(s, es[..n], m) && Enabled(m, es[n]) && s' == Apply(m, es[n]);
      InboundKept(s, es[..n], m);
      InboundStep(m, es[n]);
    }
  }

  class JobData {
    const JobId: Id
    const WorkerId: Wid
    const Client: nat
    const FuncName: Bytes
    const Params: Bytes
    var status: Status
    var Response: Response
    var RetData: Bytes

    constructor (id: Id, worker: Wid, req: Request)
      ensures JobId == id && Record() == Job(worker, req.client, req.handle, req.params, INIT, NoResponse, [])
    {
      JobId, WorkerId, Client, FuncName, Params := id, worker, req.client, req.handle, req.params;
      status, Response, RetData := INIT, NoResponse, [];
    }

    /** The job in the protocol. */
    function Record(): Job
      reads this
    {
      Job(WorkerId, Client, FuncName, Params, status, Response, RetData)
    }
  }

  function JobIds(js: seq<JobData>): (r: seq<Id>)
    ensures |r| == |js|
  {
    seq(|js|, i requires 0 <= i < |js| => js[i].JobId)
  }

  function ChannelOf(chans: map<Bytes, seq<JobData>>, name: Bytes): seq<JobData>
  {
    if name in chans then chans[name] else []
  }

  /** The worker's channels hold the known jobs that the protocol's channels name. */
  ghost predicate Linked(w: Wid, chans: map<Bytes, seq<JobData>>, known: map<Id, JobData>,
                         vchans: map<ChanKey, seq<Id>>)
  {
    && (forall n :: JobIds(ChannelOf(chans, n)) == Get(vchans, ChanKey(w, n)))
    && (forall n, i :: 0 <= i < |ChannelOf(chans, n)| ==> IsKnown(ChannelOf(chans, n)[i], known))
  }

  predicate IsKnown(j: JobData, known: map<Id, JobData>) { j.JobId in known && known[j.JobId] == j }

  /** The known jobs are those of the protocol; they come from accepted requests, so nothing in them is empty. */
  ghost predicate Agrees(w: Wid, known: map<Id, JobData>, jobs: map<Id, Job>)
    reads known.Values
  {
    forall id :: id in known ==> AgreesOn(w, known[id], id, jobs)
  }

  ghost predicate AgreesOn(w: Wid, j: JobData, id: Id, jobs: map<Id, Job>)
    reads j
  {
    j.JobId == id && j.WorkerId == w && j.FuncName != [] && j.Params != [] && id in jobs && jobs[id] == j.Record()
  }

  lemma LinkedPush(w: Wid, chans: map<Bytes, seq<JobData>>, known: map<Id, JobData>, vchans: map<ChanKey, seq<Id>>,
                   f: Bytes, j: JobData)
    requires Linked(w, chans, known, vchans) && IsKnown(j, known)
    ensures Linked(w, chans[f := ChannelOf(chans, f) + [j]], known, Add(vchans, ChanKey(w, f), j.JobId))
  {
    assert JobIds(ChannelOf(chans, f) + [j]) == JobIds(ChannelOf(chans, f)) + [j.JobId];
  }

  lemma LinkedPop(w: Wid, chans: map<Bytes, seq<JobData>>, known: map<Id, JobData>, vchans: map<ChanKey, seq<Id>>,
                  f: Bytes)
    requires Linked(w, chans, known, vchans) && ChannelOf(chans, f) != []
    ensures Get(vchans, ChanKey(w, f)) != [] && Get(vchans, ChanKey(w, f))[0] == ChannelOf(chans, f)[0].JobId
            && IsKnown(ChannelOf(chans, f)[0], known)
    ensures Linked(w, chans[f := ChannelOf(chans, f)[1..]], known,
                   vchans[ChanKey(w, f) := Get(vchans, ChanKey(w, f))[1..]])
  {
    assert JobIds(ChannelOf(chans, f)[1..]) == JobIds(ChannelOf(chans, f))[1..];
  }

  lemma LinkedMake(w: Wid, chans: map<Bytes, seq<JobData>>, known: map<Id, JobData>, vchans: map<ChanKey, seq<Id>>,
                   f: Bytes)
    requires Linked(w, chans, known, vchans)
    ensures Linked(w, chans[f := ChannelOf(chans, f)], known, vchans)
    ensures ChannelOf(chans, f) == [] <==> Get(vchans, ChanKey(w, f)) == []
  {
    assert JobIds(ChannelOf(chans, f)) == Get(vchans, ChanKey(w, f));
  }

  class SWorker {
    const WorkerId: Wid
    const Connect: Connect
    var JobChannels: map<Bytes, seq<JobData>>
    ghost var known: map<Id, JobData>     // the jobs made for this worker
    ghost var view: State                 // the broker in the protocol
    ghost var took: seq<Event>            // the events of the last call

    constructor (id: Wid, conn: Connect)
      ensures WorkerId == id && Connect == conn && JobChannels == map[] && known == map[] && view == START && Valid()
    {
      WorkerId, Connect, JobChannels, known, view, took := id, conn, map[], map[], START, [];
    }

    ghost predicate Valid()
      reads this, known.Values
    {
      Linked(WorkerId, JobChannels, known, view.chans) && Agrees(WorkerId, known, view.jobs)
    }

    function Channel(name: Bytes): seq<JobData>
      reads this
    {
      ChannelOf(JobChannels, name)
    }

    /** The object of a protocol job that stands at `t` in its dispatch. */
    ghost predicate Stands(job: JobData, t: Task)
      reads this
    {
      IsKnown(job, known) && At(view, job.JobId, t)
    }

    /** The protocol takes one more event of the call that began in state `was`. */
    ghost method Take(was: State, e: Event)
      requires Enabled(view, e) && Follows(was, took, view)
      modifies this`view, this`took
      ensures view == Apply(old(view), e) && took == old(took) + [e] && Follows(was, took, view)
    {
      hide Enabled, Apply;
      FollowsMore(was, took, view, e);
      view, took := Apply(view, e), took + [e];
    }

    ghost method StartCall()
      modifies this`took
      ensures took == [] && Follows(view, took, view)
    {
      took := [];
    }

    /** The channel of a function, made on first use. */
    method GetJobChannel(name: Bytes)
      modifies this`JobChannels
      ensures JobChannels == old(JobChannels)[name := old(Channel(name))]
    {
      if name !in JobChannels { JobChannels := JobChannels[name := []]; }
    }

    /** Appends unless the channel stays full: the protocol's Push. */
    method PushJobToChannelWithBackpressure(job: JobData?) returns (ok: bool)
      requires Valid() && (job != null && job.FuncName != [] ==> Stands(job, Pushing))
      modifies this`JobChannels, this`view, this`took
      ensures Valid() && ok == (job != null && job.FuncName != [] && |old(Channel(job.FuncName))| < 1024)
      ensures if ok then Extended(old(JobChannels), JobChannels, [job], job.FuncName)
              else Extended(old(JobChannels), JobChannels, [], [])
      ensures took == (if ok then [Push(job.JobId)] else []) && Follows(old(view), took, view)
    {
      hide Follows, Linked, Agrees;
      StartCall();
      if job == null || |job.FuncName| == 0 { return false; }
      ok := Offer(job);
    }

    /** The channel takes the job if it has room. */
    method Offer(job: JobData) returns (ok: bool)
      requires Valid() && Stands(job, Pushing) && took == [] && Follows(view, took, view)
      modifies this`JobChannels, this`view, this`took
      ensures Valid() && ok == (|old(Channel(job.FuncName))| < CHANNEL_CAPACITY)
      ensures if ok then Extended(old(JobChannels), JobChannels, [job], job.FuncName)
              else Extended(old(JobChannels), JobChannels, [], [])
      ensures took == (if ok then [Push(job.JobId)] else []) && Follows(old(view), took, view)
    {
      hide Follows, Linked, Add, Get, Enabled, Apply;
      ghost var was, chans := view, JobChannels;
      assert AgreesOn(WorkerId, job, job.JobId, view.jobs);
      hide Agrees, IsKnown;
      LinkedMake(WorkerId, chans, known, view.chans, job.FuncName);
      LinkedPush(WorkerId, chans, known, view.chans, job.FuncName, job);
      SameLength(WorkerId, chans, known, view.chans, job.FuncName);
      GetJobChannel(job.FuncName);
      if |JobChannels[job.FuncName]| >= CHANNEL_CAPACITY { return false; }
      JobChannels := JobChannels[job.FuncName := JobChannels[job.FuncName] + [job]];
      assert JobChannels == chans[job.FuncName := ChannelOf(chans, job.FuncName) + [job]];
      PushEnabled(was, job.JobId);
      Take(was, Push(job.JobId));
      return true;
    }

    /** Takes the head, or nothing when the channel stays empty. */
    method PopJobFromChannel(name: Bytes) returns (job: JobData?)
      modifies this`JobChannels
      ensures job == if old(Channel(name)) == [] then null else old(Channel(name))[0]
      ensures JobChannels == old(JobChannels)[name := if job == null then [] else old(Channel(name))[1..]]
    {
      GetJobChannel(name);
      if |JobChannels[name]| == 0 { return null; }
      job := JobChannels[name][0];
      JobChannels := JobChannels[name := JobChannels[name][1..]];
    }

    /** The protocol's Begin, Send and Store of one job. */
    ghost method TakeWork(was: State, id: Id, delivered: bool)
      requires Enabled(view, Begin(id)) && Sendable(view.jobs[id], view.jobs[id].worker) && took == []
               && Follows(was, took, view)
      modifies this`view, this`took
      ensures took == [Begin(id), Send(id, delivered), Store(id)] && Follows(was, took, view)
      ensures view.jobs == old(view).jobs[id := Started(old(view).jobs[id], old(view).jobs[id].worker)]
              && view.chans == old(view).chans
    {
      hide Follows, Enabled, Apply;
      WorkEvents(view, id, delivered);
      Take(was, Begin(id));
      Take(was, Send(id, delivered));
      Take(was, Store(id));
    }

    /**
     Marks the job as being done and sends it with its own function, parameters and id: the protocol's Begin,
     Send and Store.
     */
    method DoWork(job: JobData?, delivered: bool) returns (sent: Outgoing)
      requires Valid() && (job != null && Sendable(job.Record(), WorkerId) ==> Stands(job, Starting))
      modifies this`view, this`took, if job == null then {} else {job}
      ensures Valid() && Follows(old(view), took, view)
      ensures job != null ==>
                && job.Record() == Started(old(job.Record()), WorkerId) && job.RetData == old(job.RetData)
                && job.status == (if job.WorkerId == WorkerId && old(job.status) == INIT then DOING
                                  else old(job.status))
      ensures if job != null && job.WorkerId == WorkerId && old(job.status) == INIT && job.FuncName != []
                 && job.Params != []
              then sent == ToWorker(job.FuncName, job.Params, job.JobId)
                && job.Response == Response.Response(job.FuncName, job.Params)
                && took == [Begin(job.JobId), Send(job.JobId, delivered), Store(job.JobId)]
              else sent == Nothing && took == [] && (job != null ==> job.Response == old(job.Response))
    {
      hide Follows, Linked, Apply;
      ghost var was := view;
      StartCall();
      if job == null { return Nothing; }
      ghost var jobs := view.jobs;
      if Sendable(job.Record(), WorkerId) {
        assert AgreesOn(WorkerId, job, job.JobId, jobs);
        TakeWork(was, job.JobId, delivered);
      } else if job.WorkerId == WorkerId && job.status == INIT {
        NotKnown(job);
      }
      sent := StartJob(job);
      forall id | id in known ensures AgreesOn(WorkerId, known[id], id, view.jobs) {
        assert old(AgreesOn(WorkerId, known[id], id, jobs));
      }
    }

    /** An event of another goroutine that leaves this worker's channels and jobs alone. */
    ghost method Elsewhere(e: Event)
      requires Valid() && Enabled(view, e) && (e.Refuse? || e.Accept? || e.Take? || e.NoWorker? || e.Arrive?)
      modifies this`view
      ensures Valid() && view == Apply(old(view), e)
    {
      OtherEvent(view, e);
      hide Enabled, Apply, Linked;
      view := Apply(view, e);
      assert Agrees(WorkerId, known, view.jobs);
    }

    /** The events of dispatching a job that was made for this worker. */
    function PushEvents(job: JobData, told: bool, delivered: bool): seq<Event>
      reads this
    {
      DispatchEvents(job.JobId, job.FuncName, told, delivered)
    }

    function DispatchEvents(id: Id, f: Bytes, told: bool, delivered: bool): seq<Event>
      reads this
    {
      if |Channel(f)| < CHANNEL_CAPACITY then [Push(id)] + [Begin(id), Send(id, delivered), Store(id)]
      else [PushTimeout(id, told)]
    }

    /** The protocol's Pick: the job object is known from now on. */
    ghost method Admit(job: JobData)
      requires Valid() && At(view, job.JobId, Picking) && job.JobId in view.requests && job.JobId !in known
      requires job.Record() == Made(WorkerId, view.requests[job.JobId]) && job.FuncName != [] && job.Params != []
      modifies this`known, this`view, this`took
      ensures Valid() && known == old(known)[job.JobId := job] && At(view, job.JobId, Pushing)
      ensures took == [Pick(job.JobId, WorkerId)] && Follows(old(view), took, view)
    {
      hide Follows, Enabled, Apply, Linked, Agrees, Empty;
      var was, id := view, job.JobId;
      PickEvent(was, id, WorkerId);
      LinkedGrow(WorkerId, JobChannels, known, was.chans, id, job);
      AgreesGrow(WorkerId, known, was.jobs, id, job);
      StartCall();
      Take(was, Pick(id, WorkerId));
      known := known[id := job];
    }

    /** The job made for a request that was just given to this worker. */
    method MakeJob(id: Id, req: Request) returns (job: JobData)
      requires Valid() && At(view, id, Picking) && id in view.requests && view.requests[id] == req && !Empty(req)
      requires id !in known
      modifies this`known, this`view, this`took
      ensures Valid() && fresh(job) && job.JobId == id && Stands(job, Pushing) && known == old(known)[id := job]
      ensures job.Record() == Made(WorkerId, req) && took == [Pick(id, WorkerId)] && Follows(old(view), took, view)
    {
      hide Follows, Linked, Agrees;
      job := new JobData(id, WorkerId, req);
      Admit(job);
    }

    /** The protocol's PushTimeout. */
    ghost method TakeTimeout(was: State, id: Id, told: bool)
      requires Valid() && At(view, id, Pushing) && Follows(was, took, view)
      modifies this`view, this`took
      ensures Valid() && took == old(took) + [PushTimeout(id, told)] && Follows(was, took, view)
    {
      TimeoutPush(view, id, told);
      hide Follows, Enabled, Apply, Linked;
      Take(was, PushTimeout(id, told));
      assert Agrees(WorkerId, known, view.jobs);
    }

    /** One channel lost its head, if it had one; no other channel changed. */
    static ghost predicate Shortened(chans: map<Bytes, seq<JobData>>, chans': map<Bytes, seq<JobData>>, f: Bytes)
    {
      forall n :: ChannelOf(chans', n) == if n == f && ChannelOf(chans, n) != [] then ChannelOf(chans, n)[1..]
                                          else ChannelOf(chans, n)
    }

    /** Some jobs were appended to one channel; no other channel changed. */
    static ghost predicate Extended(chans: map<Bytes, seq<JobData>>, chans': map<Bytes, seq<JobData>>,
                                    jobs: seq<JobData>, f: Bytes)
    {
      forall n :: ChannelOf(chans', n) == if n == f then ChannelOf(chans, n) + jobs else ChannelOf(chans, n)
    }

    /**
     What the dispatch pool runs for an accepted request: the job is made for this worker, pushed on the
     channel of its function and sent, or its client is told that it cannot be done.
     */
    method DispatchJob(id: Id, req: Request, told: bool, delivered: bool) returns (sent: Outgoing)
      requires Valid() && At(view, id, Picking) && id in view.requests && view.requests[id] == req && !Empty(req)
      requires id !in known
      modifies this`JobChannels, this`known, this`view, this`took
      ensures Valid() && Follows(old(view), took, view) && view.inbound == old(view).inbound
      ensures took == [Pick(id, WorkerId)] + old(DispatchEvents(id, req.handle, told, delivered))
      ensures id in known && known == old(known)[id := known[id]] && fresh(known[id])
      ensures var ok := |old(Channel(req.handle))| < 1024;
              && sent == (if ok then ToWorker(req.handle, req.params, id) else ToClient(req.client, CantDo))
              && known[id].Record() == (if ok then Started(Made(WorkerId, req), WorkerId) else Made(WorkerId, req))
              && Extended(old(JobChannels), JobChannels, if ok then [known[id]] else [], req.handle)
    {
      hide Enabled, Apply, Follows, Linked, Agrees, Started;
      ghost var was := view;
      var job := MakeJob(id, req);
      ghost var made, picked := view, took;
      sent := PushAndWork(job, told, delivered);
      FollowsJoin(was, picked, made, took, view);
      took := picked + took;
      InboundKept(was, took, view);
    }

    /** The part after the job was made. */
    method PushAndWork(job: JobData, told: bool, delivered: bool) returns (sent: Outgoing)
      requires Valid() && Stands(job, Pushing) && Sendable(job.Record(), WorkerId)
      modifies this`JobChannels, this`view, this`took, job
      ensures Valid() && took == old(PushEvents(job, told, delivered)) && Follows(old(view), took, view)
      ensures var ok := |old(Channel(job.FuncName))| < CHANNEL_CAPACITY;
              && sent == (if ok then ToWorker(job.FuncName, job.Params, job.JobId) else ToClient(job.Client, CantDo))
              && job.Record() == (if ok then Started(old(job.Record()), WorkerId) else old(job.Record()))
              && Extended(old(JobChannels), JobChannels, if ok then [job] else [], job.FuncName)
    {
      hide Enabled, Apply, Follows, Linked, Agrees;
      ghost var was := view;
      var ok := PushJobToChannelWithBackpressure(job);
      if !ok {
        FollowsNothing(was, view);
        TakeTimeout(was, job.JobId, told);
        return ToClient(job.Client, CantDo);
      }
      FollowsOne(was, Push(job.JobId), view);
      PushEvent(was, job.JobId);
      ghost var pushed := view;
      sent := DoWork(job, delivered);
      FollowsJoin(was, [Push(job.JobId)], pushed, took, view);
      took := [Push(job.JobId)] + took;
    }

    /** The protocol's events for a result that finds the head job `id`. */
    ghost method TakeReturn(was: State, rid: Rid, id: Id, delivered: bool)
      requires view == was && took == [] && Follows(was, took, view) && rid in view.inbound
               && view.inbound[rid].at == Queued
      requires var ch := Get(view.chans, KeyOfResult(view.inbound[rid].result));
               ch != [] && ch[0] == id && id in view.jobs
      modifies this`view, this`took
      ensures took == ReturnEvents(was, rid, delivered) && Follows(was, took, view)
      ensures var r := was.inbound[rid].result;
              && view.chans == was.chans[KeyOfResult(r) := Get(was.chans, KeyOfResult(r))[1..]]
              && (if Completes(was.jobs[id], r) then view.jobs == was.jobs[id := Returned(was.jobs[id], r)]
                  else view.jobs == was.jobs)
              && view.answers == (if Completes(was.jobs[id], r)
                                  then Say(was.answers, id, Answered(Returned(was.jobs[id], r)), delivered)
                                  else was.answers)
    {
      hide Follows, Enabled, Apply, Completes, Get;
      var r := view.inbound[rid].result;
      PopEvent(view, rid);
      Take(was, PopHead(rid));
      if Completes(view.jobs[id], r) {
        MatchEvents(view, rid, delivered);
        Take(was, Complete(rid));
        Take(was, Reply(rid, delivered));
      } else {
        MismatchEvent(view, rid);
        Take(was, Reject(rid));
      }
    }

    /**
     Pops the head of the result's channel and, when the result matches that job, completes the job and
     answers its client: the protocol's events for the result `rid`.
     */
    method ReturnData(r: Result, delivered: bool, ghost rid: Rid) returns (reply: Outgoing)
      requires Valid() && r.worker == WorkerId && rid in view.inbound && view.inbound[rid].result == r
               && view.inbound[rid].at == Queued
      modifies this`JobChannels, this`view, this`took, if Channel(r.handle) == [] then {} else {Channel(r.handle)[0]}
      ensures Valid() && took == ReturnEvents(old(view), rid, delivered) && Follows(old(view), took, view)
      ensures Shortened(old(JobChannels), JobChannels, r.handle)
      ensures old(Channel(r.handle)) == [] ==> reply == Nothing && view.answers == old(view).answers
      ensures old(Channel(r.handle)) != [] ==>
                var job := old(Channel(r.handle))[0];
                && job.Record() == Returned(old(job.Record()), r)
                && SettledBy(old(job.Record()), job.Record(), r, job.JobId, reply, old(view).answers, view.answers,
                             delivered)
    {
      hide Follows, Linked, Apply, Enabled, Agrees;
      ghost var was, chans := view, JobChannels;
      StartCall();
      LinkedMake(WorkerId, chans, known, view.chans, r.handle);
      var job := PopJobFromChannel(r.handle);
      if job == null {
        TimeoutEffect(was, rid);
        Take(was, PopTimeout(rid));
        return Nothing;
      }
      LinkedPop(WorkerId, chans, known, was.chans, r.handle);
      reply := Settle(job, r, delivered, rid, was);
    }

    /** The rest of that call once its channel has given the job. */
    method Settle(job: JobData, r: Result, delivered: bool, ghost rid: Rid, ghost was: State)
      returns (reply: Outgoing)
      requires view == was && took == [] && Follows(was, took, view) && r.worker == WorkerId
      requires rid in was.inbound && was.inbound[rid].result == r && was.inbound[rid].at == Queued
      requires var ch := Get(was.chans, KeyOfResult(r)); ch != [] && ch[0] == job.JobId
      requires IsKnown(job, known) && Agrees(WorkerId, known, was.jobs)
      modifies this`view, this`took, job
      ensures took == ReturnEvents(was, rid, delivered) && Follows(was, took, view)
      ensures view.chans == was.chans[KeyOfResult(r) := Get(was.chans, KeyOfResult(r))[1..]]
      ensures Agrees(WorkerId, known, view.jobs) && job.Record() == Returned(old(job.Record()), r)
      ensures SettledBy(old(job.Record()), job.Record(), r, job.JobId, reply, was.answers, view.answers, delivered)
    {
      hide Follows, Apply, Enabled, Completes, Get, Empty, ReturnEvents, SettledBy;
      assert AgreesOn(WorkerId, job, job.JobId, was.jobs);
      TakeReturn(was, rid, job.JobId, delivered);
      reply := FinishJob(job, r);
      SettledIs(old(job.Record()), r, job.JobId, was.answers, delivered);
      forall id | id in known ensures AgreesOn(WorkerId, known[id], id, view.jobs) {
        assert old(AgreesOn(WorkerId, known[id], id, view.jobs));
      }
    }

    method FinishJob(job: JobData, r: Result) returns (reply: Outgoing)
      requires job.WorkerId == WorkerId == r.worker
      modifies job
      ensures job.Record() == Returned(old(job.Record()), r)
      ensures reply == if Completes(old(job.Record()), r) && job.FuncName != [] && job.Params != []
                       then ToClient(job.Client, Answered(job.Record())) else Nothing
    {
      reply := Nothing;
      if job.WorkerId == WorkerId && job.status == DOING {
        if job.Response.Response? && job.Response.handle == r.handle && |job.Response.params| == r.paramsLen {
          job.RetData := job.RetData + r.ret;
          job.status := DONE;
        } else {
          return;
        }
        if job.FuncName != [] && |job.Params| != 0 {
          reply := ToClient(job.Client, Frame.ReturnData(job.Response.handle, job.Response.params, job.RetData));
        }
      }
    }

    /** A job with an empty function or no parameters is none of the protocol's. */
    lemma NotKnown(job: JobData)
      requires Agrees(WorkerId, known, view.jobs) && (job.FuncName == [] || job.Params == [])
      ensures job !in known.Values
    {
    }

    method StartJob(job: JobData) returns (sent: Outgoing)
      modifies job
      ensures job.Record() == Started(old(job.Record()), WorkerId)
      ensures sent == if old(Sendable(job.Record(), WorkerId)) then ToWorker(job.FuncName, job.Params, job.JobId)
              else Nothing
    {
      sent := Nothing;
      if job.WorkerId == WorkerId && job.status == INIT {
        job.status := DOING;
        if job.FuncName != [] && |job.Params| != 0 {
          sent := ToWorker(job.FuncName, job.Params, job.JobId);
          job.Response := Response.Response(job.FuncName, job.Params);
        }
      }
    }
  }

  function Returned(j: Job, r: Result): Job { if Completes(j, r) then j.(status := DONE, ret := j.ret + r.ret) else j }

  function Answered(j: Job): Frame
  {
    if j.response.Response? then Frame.ReturnData(j.response.handle, j.response.params, j.ret) else Error
  }

  /**
   A job that is being done takes a result whose handle and parameter length are those the job was sent with:
   it is done, and its client is sent the job's handle and parameters with the ret. Any other result is dropped.
   */
  ghost predicate SettledBy(j: Job, j': Job, r: Result, id: Id, reply: Outgoing, answers: seq<Answer>,
                            answers': seq<Answer>, delivered: bool)
  {
    if j.status == DOING && j.response.Response? && j.response.handle == r.handle && |j.response.params| == r.paramsLen
    then
      var frame := Frame.ReturnData(r.handle, j.response.params, j.ret + r.ret);
      && j' == j.(status := DONE, ret := j.ret + r.ret) && reply == ToClient(j.client, frame)
      && answers' == if delivered then answers + [Answer(id, frame)] else answers
    else j' == j && reply == Nothing && answers' == answers
  }

  lemma SettledIs(j: Job, r: Result, id: Id, answers: seq<Answer>, delivered: bool)
    requires j.worker == r.worker
    ensures var j' := Returned(j, r);
            if Completes(j, r)
            then SettledBy(j, j', r, id, ToClient(j.client, Answered(j')), answers,
                           Say(answers, id, Answered(j'), delivered), delivered)
            else SettledBy(j, j', r, id, Nothing, answers, answers, delivered)
  {
  }

  /** The events of a call of `returnData` with result `rid`. */
  function ReturnEvents(s: State, rid: Rid, delivered: bool): seq<Event>
    requires rid in s.inbound
  {
    var r := s.inbound[rid].result;
    var ch := Get(s.chans, KeyOfResult(r));
    if ch == [] then [PopTimeout(rid)]
    else if ch[0] in s.jobs && Completes(s.jobs[ch[0]], r) then [PopHead(rid), Complete(rid), Reply(rid, delivered)]
    else [PopHead(rid), Reject(rid)]
  }

  lemma TimeoutEffect(s: State, rid: Rid)
    requires rid in s.inbound && s.inbound[rid].at == Queued
    ensures Enabled(s, PopTimeout(rid))
    ensures var s' := Apply(s, PopTimeout(rid)); s'.chans == s.chans && s'.jobs == s.jobs && s'.answers == s.answers
  {
  }

  lemma PopEvent(s: State, rid: Rid)
    requires rid in s.inbound && s.inbound[rid].at == Queued && Get(s.chans, KeyOfResult(s.inbound[rid].result)) != []
    requires Get(s.chans, KeyOfResult(s.inbound[rid].result))[0] in s.jobs
    ensures Enabled(s, PopHead(rid))
    ensures var r, s1 := s.inbound[rid].result, Apply(s, PopHead(rid));
            var ch := Get(s.chans, KeyOfResult(r));
            && Checking(s1, rid) && s1.inbound[rid].at == Holding(ch[0]) && s1.inbound[rid].result == r
            && s1.chans == s.chans[KeyOfResult(r) := ch[1..]] && s1.jobs == s.jobs && s1.answers == s.answers
  {
  }

  lemma MatchEvents(s: State, rid: Rid, delivered: bool)
    requires Checking(s, rid) && Completes(s.jobs[s.inbound[rid].at.job], s.inbound[rid].result)
    ensures var id := s.inbound[rid].at.job;
            Enabled(s, Complete(rid)) &&
            var s2 := Apply(s, Complete(rid));
            s2.jobs == s.jobs[id := Returned(s.jobs[id], s.inbound[rid].result)] &&
            Enabled(s2, Reply(rid, delivered)) &&
            var s3 := Apply(s2, Reply(rid, delivered));
            s3.jobs == s2.jobs && s3.chans == s.chans &&
            s3.answers == Say(s.answers, id, Answered(s2.jobs[id]), delivered)
  {
  }

  lemma MismatchEvent(s: State, rid: Rid)
    requires Checking(s, rid) && !Completes(s.jobs[s.inbound[rid].at.job], s.inbound[rid].result)
    ensures Enabled(s, Reject(rid)) && Apply(s, Reject(rid)).jobs == s.jobs && Apply(s, Reject(rid)).chans == s.chans
    ensures Apply(s, Reject(rid)).answers == s.answers
  {
  }

  function Made(w: Wid, q: Request): Job { Job(w, q.client, q.handle, q.params, INIT, NoResponse, []) }

  lemma PickEvent(s: State, id: Id, w: Wid)
    requires At(s, id, Picking) && id in s.requests
    ensures Enabled(s, Pick(id, w))
    ensures var s', e := Apply(s, Pick(id, w)), Pick(id, w);
            s'.chans == s.chans && s'.jobs == s.jobs[id := Made(w, s.requests[id])] && At(s', id, Pushing)
  {
  }

  lemma PushEnabled(s: State, id: Id)
    requires At(s, id, Pushing) && id in s.jobs && |Get(s.chans, KeyOf(s.jobs[id]))| < CHANNEL_CAPACITY
    ensures Enabled(s, Push(id))
    ensures var s' := Apply(s, Push(id)); s'.chans == Add(s.chans, KeyOf(s.jobs[id]), id) && s'.jobs == s.jobs
  {
    hide Get;
  }

  lemma PushEvent(s: State, id: Id)
    requires Enabled(s, Push(id))
    ensures At(Apply(s, Push(id)), id, Starting)
  {
  }

  lemma TimeoutPush(s: State, id: Id, told: bool)
    requires At(s, id, Pushing)
    ensures Enabled(s, PushTimeout(id, told))
    ensures Apply(s, PushTimeout(id, told)).chans == s.chans && Apply(s, PushTimeout(id, told)).jobs == s.jobs
  {
  }

  lemma OtherEvent(s: State, e: Event)
    requires Enabled(s, e) && (e.Refuse? || e.Accept? || e.Take? || e.NoWorker? || e.Arrive?)
    ensures Apply(s, e).chans == s.chans && Apply(s, e).jobs == s.jobs
  {
  }

  lemma AgreesGrow(w: Wid, known: map<Id, JobData>, jobs: map<Id, Job>, id: Id, j: JobData)
    requires Agrees(w, known, jobs) && id !in known && j.JobId == id && j.WorkerId == w
    requires j.FuncName != [] && j.Params != []
    ensures Agrees(w, known[id := j], jobs[id := j.Record()])
  {
    var known', jobs' := known[id := j], jobs[id := j.Record()];
    forall x | x in known' ensures AgreesOn(w, known'[x], x, jobs') {
      if x != id { assert AgreesOn(w, known[x], x, jobs); }
    }
  }

  lemma LinkedGrow(w: Wid, chans: map<Bytes, seq<JobData>>, known: map<Id, JobData>, vchans: map<ChanKey, seq<Id>>,
                   id: Id, j: JobData)
    requires Linked(w, chans, known, vchans) && id !in known
    ensures Linked(w, chans, known[id := j], vchans)
  {
    forall n, i | 0 <= i < |ChannelOf(chans, n)| ensures IsKnown(ChannelOf(chans, n)[i], known[id := j]) {
      assert IsKnown(ChannelOf(chans, n)[i], known);
    }
  }

  /** What Begin, Send and Store do to a job of the protocol. */
  lemma WorkEvents(s: State, id: Id, delivered: bool)
    requires Enabled(s, Begin(id)) && Sendable(s.jobs[id], s.jobs[id].worker)
    ensures var s1 := Apply(s, Begin(id));
            Enabled(s1, Send(id, delivered)) &&
            var s2 := Apply(s1, Send(id, delivered));
            Enabled(s2, Store(id)) &&
            var s3 := Apply(s2, Store(id));
            s3.jobs == s.jobs[id := Started(s.jobs[id], s.jobs[id].worker)] && s3.chans == s.chans
  {
  }

  predicate Sendable(j: Job, w: Wid) { j.worker == w && j.status == INIT && j.func != [] && j.params != [] }

  datatype Outgoing = Nothing | ToWorker(handle: Bytes, params: Bytes, id: Id) | ToClient(client: nat, frame: Frame)

  function Started(j: Job, w: Wid): Job
  {
    if Sendable(j, w) then j.(status := DOING, response := Response.Response(j.func, j.params))
    else if j.worker == w && j.status == INIT then j.(status := DOING)
    else j
  }

  lemma SameLength(w: Wid, chans: map<Bytes, seq<JobData>>, known: map<Id, JobData>, vchans: map<ChanKey, seq<Id>>,
                   f: Bytes)
    requires Linked(w, chans, known, vchans)
    ensures |ChannelOf(chans, f)| == |Get(vchans, ChanKey(w, f))|
  {
    assert JobIds(ChannelOf(chans, f)) == Get(vchans, ChanKey(w, f));
  }

  lemma TakenEvents(req: Request)
    requires !Empty(req)
    ensures Enabled(START, Accept(0, req))
    ensures Enabled(Apply(START, Accept(0, req)), Take(0))
    ensures var s := Apply(Apply(START, Accept(0, req)), Take(0));
            At(s, 0, Picking) && s.requests == map[0 := req] && s.inbound == map[]
  {
  }

  lemma ArriveEvent(s: State, rid: Rid, r: Result)
    requires rid !in s.inbound
    ensures Enabled(s, Arrive(rid, r))
    ensures var s' := Apply(s, Arrive(rid, r));
            rid in s'.inbound && s'.inbound[rid].result == r && s'.inbound[rid].at == Queued
  {
  }

  /** A worker that was just given the request. */
  method Chosen(w: Wid, req: Request) returns (worker: SWorker)
    requires !Empty(req)
    ensures fresh(worker) && worker.Valid() && worker.WorkerId == w && worker.known == map[]
            && worker.JobChannels == map[]
    ensures var s := worker.view; At(s, 0, Picking) && s.requests == map[0 := req] && s.inbound == map[]
  {
    TakenEvents(req);
    hide Enabled, Apply, Linked, Agrees;
    var conn := new Connect(1024);
    worker := new SWorker(w, conn);
    worker.Elsewhere(Accept(0, req));
    worker.Elsewhere(Take(0));
  }

  /** The worker's result for a request comes back, with nothing in between. */
  method Deliver(worker: SWorker, req: Request, ret: Bytes) returns (reply: Outgoing)
    requires worker.Valid() && worker.view.inbound == map[] && !Empty(req)
    requires 0 in worker.known && worker.known[0].Record() == Started(Made(worker.WorkerId, req), worker.WorkerId)
    requires worker.Channel(req.handle) == [worker.known[0]]
    modifies worker, worker.known.Values
    ensures reply == ToClient(req.client, Frame.ReturnData(req.handle, req.params, ret))
  {
    hide Enabled, Apply, Follows, Linked, Agrees;
    var r := Result(worker.WorkerId, req.handle, |req.params|, 0, ret);
    ArriveEvent(worker.view, 0, r);
    worker.Elsewhere(Arrive(0, r));
    assert [] + ret == ret;
    reply := worker.ReturnData(r, true, 0);
  }

  /** One call from request to reply, with nothing in between: the client gets the worker's result for it. */
  method ServeOne(w: Wid, req: Request, ret: Bytes) returns (sent: Outgoing, reply: Outgoing)
    requires !Empty(req)
    ensures sent == ToWorker(req.handle, req.params, 0)
    ensures reply == ToClient(req.client, Frame.ReturnData(req.handle, req.params, ret))
  {
    hide Enabled, Apply, Follows, Linked, Agrees, Started;
    var worker := Chosen(w, req);
    sent := worker.DispatchJob(0, req, true, true);
    assert worker.Channel(req.handle) == [worker.known[0]];
    reply := Deliver(worker, req, ret);
  }
}
