/**
 The write side of a server connection: any number of goroutines call `Write`, one `writeLoop`
 drains the queue to the socket. Each atomic operation on shared state is one event.
 */
module WriteQueue {
  import opened Bytes
  import opened Totals

  const QUEUE_CAPACITY := 256

  /** A `Write` call after its first atomic add: admitted (the sum was within the bound), refused, or rolling back. */
  datatype Writer = Admitted(frame: Bytes) | Refused(frame: Bytes) | Full(frame: Bytes) | Returned

  datatype Loop =
    | Idle
    | Writing(frame: Bytes, done: nat)   // `done` bytes of `frame` are on the socket
    | Failing(frame: Bytes)              // an error occurred; the frame's bytes are still counted
    | Draining
    | Dropping(frame: Bytes)             // taken while draining, not yet uncounted
    | Exited

  /** `accepted` and `socket` record history: frames in the order the channel took them, and bytes written. */
  datatype Conn = Conn(
    max: nat, pending: int, closed: bool, queue: seq<Bytes>, writers: seq<Writer>, loop: Loop,
    accepted: seq<Bytes>, socket: Bytes)

  function Fresh(max: nat): Conn { Conn(max, 0, false, [], [], Idle, [], []) }

  datatype Event =
    | Reserve(frame: Bytes)      // the atomic add; the closed flag may have been read long before
    | Enqueue(i: nat)            // the channel has room
    | FindFull(i: nat)           // it has none
    | RollBack(i: nat)           // the subtracting atomic add of either error return
    | Close
    | TakeFrame
    | WriteSome(n: nat)
    | FinishFrame
    | WriteError(n: nat)         // `n` bytes may have gone out before the error
    | Uncount                    // the subtracting add of the error return; the loop ends
    | SeeClosed
    | DropFrame
    | UncountDropped
    | Leave

  predicate Enabled(c: Conn, e: Event)
  {
    match e
    case Reserve(f) => f != []
    case Enqueue(i) => i < |c.writers| && c.writers[i].Admitted? && |c.queue| < QUEUE_CAPACITY
    case FindFull(i) => i < |c.writers| && c.writers[i].Admitted? && |c.queue| >= QUEUE_CAPACITY
    case RollBack(i) => i < |c.writers| && (c.writers[i].Refused? || c.writers[i].Full?)
    case Close => true
    case TakeFrame => c.loop == Idle && c.queue != []
    case WriteSome(n) => c.loop.Writing? && c.loop.done + n <= |c.loop.frame|
    case FinishFrame => c.loop.Writing? && c.loop.done == |c.loop.frame|
    case WriteError(n) => c.loop.Writing? && c.loop.done + n <= |c.loop.frame| && c.loop.done < |c.loop.frame|
    case Uncount => c.loop.Failing?
    case SeeClosed => c.loop == Idle && c.closed
    case DropFrame => c.loop == Draining && c.queue != []
    case UncountDropped => c.loop.Dropping?
    case Leave => c.loop == Draining && c.queue == []
  }

  function Apply(c: Conn, e: Event): Conn
    requires Enabled(c, e)
  {
    match e
    case Reserve(f) => (
      var sum := c.pending + |f|;
      c.(pending := sum, writers := c.writers + [if sum > c.max then Refused(f) else Admitted(f)]))
    case Enqueue(i) =>
      c.(queue := c.queue + [c.writers[i].frame], writers := c.writers[i := Returned],
         accepted := c.accepted + [c.writers[i].frame])
    case FindFull(i) => c.(writers := c.writers[i := Full(c.writers[i].frame)])
    case RollBack(i) => c.(pending := c.pending - |c.writers[i].frame|, writers := c.writers[i := Returned])
    case Close => c.(closed := true)
    case TakeFrame => c.(queue := c.queue[1..], loop := Writing(c.queue[0], 0))
    case WriteSome(n) =>
      c.(loop := Writing(c.loop.frame, c.loop.done + n),
         socket := c.socket + c.loop.frame[c.loop.done..c.loop.done + n])
    case FinishFrame => c.(pending := c.pending - |c.loop.frame|, loop := Idle)
    case WriteError(n) =>
      c.(loop := Failing(c.loop.frame), closed := true,
         socket := c.socket + c.loop.frame[c.loop.done..c.loop.done + n])
    case Uncount => c.(pending := c.pending - |c.loop.frame|, loop := Exited)
    case SeeClosed => c.(loop := Draining)
    case DropFrame => c.(queue := c.queue[1..], loop := Dropping(c.queue[0]))
    case UncountDropped => c.(pending := c.pending - |c.loop.frame|, loop := Draining)
    case Leave => c.(loop := Exited)
  }

  // ---------------------------------------------------------------- accounting

  function Reserved(w: Writer): int { if w.Returned? then 0 else |w.frame| }

  /** Past the bound check and not rolling back. */
  function PastCheck(w: Writer): int { if w.Admitted? then |w.frame| else 0 }

  function Size(f: Bytes): int { |f| }

  function InFlight(l: Loop): int { if l.Writing? || l.Failing? || l.Dropping? then |l.frame| else 0 }

  /** Bytes queued, bytes in the loop's hands, and bytes reserved by writers still inside `Write`. */
  ghost predicate Counted(c: Conn)
  {
    c.pending == Total(c.queue, Size) + InFlight(c.loop) + Total(c.writers, Reserved)
  }

  /** Bytes the bound check let through. */
  ghost function AdmittedBytes(c: Conn): int
  {
    Total(c.queue, Size) + InFlight(c.loop) + Total(c.writers, PastCheck)
  }

  ghost predicate Bounded(c: Conn) { AdmittedBytes(c) <= c.max }

  lemma AdmittedWithinPending(c: Conn)
    requires Counted(c)
    ensures 0 <= AdmittedBytes(c) <= c.pending
  {
    TotalMonotone(c.writers, PastCheck, Reserved);
    TotalNonNegative(c.writers, PastCheck);
    TotalNonNegative(c.queue, Size);
  }

  lemma WriterStep(c: Conn, i: nat, w: Writer)
    requires i < |c.writers|
    ensures Total(c.writers[i := w], Reserved) == Total(c.writers, Reserved) - Reserved(c.writers[i]) + Reserved(w)
    ensures Total(c.writers[i := w], PastCheck) == Total(c.writers, PastCheck) - PastCheck(c.writers[i]) + PastCheck(w)
  {
    TotalSet(c.writers, i, w, Reserved);
    TotalSet(c.writers, i, w, PastCheck);
  }

  lemma ReserveKept(c: Conn, f: Bytes)
    requires Counted(c) && Bounded(c) && Enabled(c, Reserve(f))
    ensures Counted(Apply(c, Reserve(f))) && Bounded(Apply(c, Reserve(f)))
  {
    AdmittedWithinPending(c);
    hide Total;
    var w := if c.pending + |f| > c.max then Refused(f) else Admitted(f);
    TotalPush(c.writers, w, Reserved);
    TotalPush(c.writers, w, PastCheck);
  }

  lemma EnqueueKept(c: Conn, i: nat)
    requires Counted(c) && Bounded(c) && Enabled(c, Enqueue(i))
    ensures Counted(Apply(c, Enqueue(i))) && Bounded(Apply(c, Enqueue(i)))
  {
    hide Total;
    WriterStep(c, i, Returned);
    TotalPush(c.queue, c.writers[i].frame, Size);
  }

  lemma ReturnKept(c: Conn, e: Event)
    requires Counted(c) && Bounded(c) && Enabled(c, e) && (e.FindFull? || e.RollBack?)
    ensures Counted(Apply(c, e)) && Bounded(Apply(c, e))
  {
    hide Total;
    WriterStep(c, e.i, if e.FindFull? then Full(c.writers[e.i].frame) else Returned);
  }

  lemma DequeueKept(c: Conn, e: Event)
    requires Counted(c) && Bounded(c) && Enabled(c, e) && (e.TakeFrame? || e.DropFrame?)
    ensures Counted(Apply(c, e)) && Bounded(Apply(c, e))
  {
    hide Total;
    TotalHead(c.queue, Size);
  }

  lemma LoopKept(c: Conn, e: Event)
    requires Counted(c) && Bounded(c) && Enabled(c, e) && !e.TakeFrame? && !e.DropFrame?
    requires !e.Reserve? && !e.Enqueue? && !e.FindFull? && !e.RollBack?
    ensures Counted(Apply(c, e)) && Bounded(Apply(c, e))
  {
    hide Total;
  }

  lemma AccountingKept(c: Conn, e: Event)
    requires Counted(c) && Bounded(c) && Enabled(c, e)
    ensures Counted(Apply(c, e)) && Bounded(Apply(c, e))
  {
    hide *;
    match e
    case Reserve(f) => ReserveKept(c, f);
    case Enqueue(i) => EnqueueKept(c, i);
    case FindFull(_) => ReturnKept(c, e);
    case RollBack(_) => ReturnKept(c, e);
    case TakeFrame => DequeueKept(c, e);
    case DropFrame => DequeueKept(c, e);
    case _ => LoopKept(c, e);
  }

  // ---------------------------------------------------------------- what the socket carries

  /** While the loop runs, the accepted frames are those sent, the one being sent, and those queued, in order. */
  ghost predicate Streams(c: Conn, sent: seq<Bytes>)
  {
    match c.loop
    case Idle => c.accepted == sent + c.queue && c.socket == Concat(sent)
    case Writing(f, done) =>
      c.accepted == sent + [f] + c.queue && done <= |f| && c.socket == Concat(sent) + f[..done]
    case _ => c.socket <= Concat(c.accepted)
  }

  ghost predicate InOrder(c: Conn) { exists sent :: Streams(c, sent) }

  lemma PrefixOfMore(a: seq<Bytes>, b: seq<Bytes>, x: Bytes)
    requires x <= Concat(a)
    ensures x <= Concat(a + b)
  {
    ConcatJoin(a, b);
  }

  lemma StreamsPrefix(c: Conn, sent: seq<Bytes>)
    requires Streams(c, sent)
    ensures c.socket <= Concat(c.accepted)
  {
    match c.loop
    case Idle => ConcatJoin(sent, c.queue);
    case Writing(f, done) =>
      ConcatPush(sent, f);
      assert f == f[..done] + f[done..];
      assert c.socket <= Concat(sent + [f]);
      PrefixOfMore(sent + [f], c.queue, c.socket);
    case _ =>
  }

  lemma EnqueueOrder(c: Conn, i: nat, sent: seq<Bytes>)
    requires Streams(c, sent) && Enabled(c, Enqueue(i))
    ensures Streams(Apply(c, Enqueue(i)), sent)
  {
    hide Concat;
    var f := c.writers[i].frame;
    match c.loop
    case Idle => assert sent + (c.queue + [f]) == sent + c.queue + [f];
    case Writing(g, _) => assert sent + [g] + (c.queue + [f]) == sent + [g] + c.queue + [f];
    case _ => PrefixOfMore(c.accepted, [f], c.socket);
  }

  lemma TakeOrder(c: Conn, sent: seq<Bytes>)
    requires Streams(c, sent) && c.loop == Idle && c.queue != []
    ensures Streams(Apply(c, TakeFrame), sent)
  {
    hide Concat;
    assert c.queue == [c.queue[0]] + c.queue[1..];
    assert sent + c.queue == sent + [c.queue[0]] + c.queue[1..];
  }

  lemma WriteOrder(c: Conn, n: nat, sent: seq<Bytes>)
    requires Streams(c, sent) && Enabled(c, WriteSome(n))
    ensures Streams(Apply(c, WriteSome(n)), sent)
  {
    hide Concat;
    var f, d := c.loop.frame, c.loop.done;
    assert f[..d] + f[d..d + n] == f[..d + n];
    assert Concat(sent) + f[..d] + f[d..d + n] == Concat(sent) + (f[..d] + f[d..d + n]);
  }

  lemma FinishOrder(c: Conn, sent: seq<Bytes>)
    requires Streams(c, sent) && Enabled(c, FinishFrame)
    ensures Streams(Apply(c, FinishFrame), sent + [c.loop.frame])
  {
    hide Concat;
    ConcatPush(sent, c.loop.frame);
  }

  lemma OrderKept(c: Conn, e: Event, sent: seq<Bytes>) returns (sent': seq<Bytes>)
    requires Streams(c, sent) && Enabled(c, e)
    ensures Streams(Apply(c, e), sent')
  {
    hide Concat;
    sent' := if e.FinishFrame? then sent + [c.loop.frame] else sent;
    StreamsPrefix(c, sent);
    match e
    case Enqueue(i) => EnqueueOrder(c, i, sent);
    case TakeFrame => TakeOrder(c, sent);
    case WriteSome(n) => WriteOrder(c, n, sent);
    case FinishFrame => FinishOrder(c, sent);
    case WriteError(n) => ErrorPrefix(c, sent, n);
    case _ =>
  }

  lemma ErrorPrefix(c: Conn, sent: seq<Bytes>, n: nat)
    requires Streams(c, sent) && c.loop.Writing? && c.loop.done + n <= |c.loop.frame|
    ensures c.socket + c.loop.frame[c.loop.done..c.loop.done + n] <= Concat(c.accepted)
  {
    var f, d := c.loop.frame, c.loop.done;
    ConcatPush(sent, f);
    assert f[..d] + f[d..d + n] == f[..d + n];
    assert c.socket + f[d..d + n] == Concat(sent) + f[..d + n];
    PrefixOfMore(sent + [f], c.queue, c.socket + f[d..d + n]);
  }

  // ---------------------------------------------------------------- runs

  predicate Step(c: Conn, e: Event, c': Conn) { Enabled(c, e) && c' == Apply(c, e) }

  ghost predicate IsRun(cs: seq<Conn>, es: seq<Event>, max: nat)
  {
    && |cs| == |es| + 1 && cs[0] == Fresh(max)
    && forall i {:trigger es[i]} :: 0 <= i < |es| ==> Step(cs[i], es[i], cs[i + 1])
  }

  lemma {:induction false} RunInv(cs: seq<Conn>, es: seq<Event>, max: nat, i: nat)
    requires IsRun(cs, es, max) && i < |cs|
    ensures cs[i].max == max && Counted(cs[i]) && Bounded(cs[i]) && InOrder(cs[i])
  {
    if i == 0 {
      assert Streams(cs[0], []);
    } else {
      RunInv(cs, es, max, i - 1);
      assert Step(cs[i - 1], es[i - 1], cs[i]);
      hide Counted, Bounded, Streams;
      AccountingKept(cs[i - 1], es[i - 1]);
      var sent :| Streams(cs[i - 1], sent);
      var sent' := OrderKept(cs[i - 1], es[i - 1], sent);
    }
  }

  /**
   In every interleaving of any number of writers, the write loop, closes and write errors:
   `pendingBytes` is exactly the bytes queued, in flight and reserved; it is never negative; and
   what passed the bound check never exceeds the bound.
   */
  lemma PendingExact(cs: seq<Conn>, es: seq<Event>, max: nat, i: nat)
    requires IsRun(cs, es, max) && i < |cs|
    ensures var c := cs[i];
            && c.pending == Total(c.queue, Size) + InFlight(c.loop) + Total(c.writers, Reserved)
            && c.pending >= 0 && AdmittedBytes(c) <= max
  {
    RunInv(cs, es, max, i);
    AdmittedWithinPending(cs[i]);
  }

  /** The bytes on the socket are always a prefix of the accepted frames in the order they were accepted. */
  lemma SocketPrefix(cs: seq<Conn>, es: seq<Event>, max: nat, i: nat)
    requires IsRun(cs, es, max) && i < |cs|
    ensures cs[i].socket <= Concat(cs[i].accepted)
  {
    RunInv(cs, es, max, i);
    var sent :| Streams(cs[i], sent);
    StreamsPrefix(cs[i], sent);
  }

  // ---------------------------------------------------------------- how the loop ends

  lemma RunStep(cs: seq<Conn>, es: seq<Event>, max: nat, i: nat)
    requires IsRun(cs, es, max) && i < |es|
    ensures |cs| == |es| + 1 && Step(cs[i], es[i], cs[i + 1])
  {
    hide Step;
  }

  lemma EndStep(c: Conn, e: Event, c': Conn)
    requires Step(c, e, c') && Counted(c') && c.loop != Exited && c'.loop == Exited
    ensures c.loop.Failing? || (c'.queue == [] && c'.pending == Total(c'.writers, Reserved))
  {
    if !c.loop.Failing? { assert Total(c'.queue, Size) == 0; }
    hide Total;
  }

  /**
   The write loop ends after a write error, or after a close and then only when the queue is empty and every
   byte is uncounted that no writer has reserved.
   */
  lemma LoopEnds(cs: seq<Conn>, es: seq<Event>, max: nat, i: nat)
    requires IsRun(cs, es, max) && i < |es| && |cs| == |es| + 1 && cs[i].loop != Exited && cs[i + 1].loop == Exited
    ensures cs[i].loop.Failing? || (cs[i + 1].queue == [] && cs[i + 1].pending == Total(cs[i + 1].writers, Reserved))
  {
    RunStep(cs, es, max, i);
    RunInv(cs, es, max, i + 1);
    hide IsRun, Bounded, InOrder;
    EndStep(cs[i], es[i], cs[i + 1]);
  }

  predicate Over(l: Loop) { l.Failing? || l.Draining? || l.Dropping? || l.Exited? }

  lemma OverStep(c: Conn, e: Event, c': Conn)
    requires Step(c, e, c') && Over(c.loop)
    ensures Over(c'.loop) && c'.socket == c.socket
  {
  }

  /** The loop stops writing only on a closed connection, and a write fails only with bytes left to write. */
  lemma {:induction false} OverIsClosed(cs: seq<Conn>, es: seq<Event>, max: nat, i: nat)
    requires IsRun(cs, es, max) && i < |cs|
    ensures Over(cs[i].loop) ==> cs[i].closed
    ensures i < |es| && es[i].WriteError? ==> cs[i].loop.Writing? && cs[i].loop.done < |cs[i].loop.frame|
  {
    assert |cs| == |es| + 1;
    if i < |es| { RunStep(cs, es, max, i); }
    if i > 0 {
      OverIsClosed(cs, es, max, i - 1);
      RunStep(cs, es, max, i - 1);
      hide IsRun;
    }
  }

  /** After a write error, and once the loop has seen the close, nothing more goes to the socket. */
  lemma {:induction false} SocketStops(cs: seq<Conn>, es: seq<Event>, max: nat, i: nat, j: nat)
    requires IsRun(cs, es, max) && i <= j < |cs| && Over(cs[i].loop)
    ensures Over(cs[j].loop) && cs[j].socket == cs[i].socket
  {
    if i < j {
      SocketStops(cs, es, max, i, j - 1);
      assert |cs| == |es| + 1;
      RunStep(cs, es, max, j - 1);
      hide IsRun, Step, Over;
      OverStep(cs[j - 1], es[j - 1], cs[j]);
    }
  }

  /** At most 256 frames are queued, and a write with fewer in front of it gets its frame in. */
  lemma {:induction false} QueueBound(cs: seq<Conn>, es: seq<Event>, max: nat, i: nat)
    requires IsRun(cs, es, max) && i < |cs|
    ensures |cs[i].queue| <= 256
    ensures forall w :: 0 <= w < |cs[i].writers| && cs[i].writers[w].Admitted? ==>
            (Enabled(cs[i], Enqueue(w)) <==> |cs[i].queue| < 256)
  {
    if i > 0 {
      QueueBound(cs, es, max, i - 1);
      assert |cs| == |es| + 1;
      RunStep(cs, es, max, i - 1);
      hide IsRun;
    }
  }

  /** A write is admitted exactly when the bytes pending with its own do not exceed the bound. */
  lemma AdmittedIff(c: Conn, f: Bytes)
    requires Enabled(c, Reserve(f))
    ensures var c' := Apply(c, Reserve(f));
            && |c'.writers| == |c.writers| + 1
            && c'.writers[|c.writers|] == if c.pending + |f| <= c.max then Admitted(f) else Refused(f)
  {
  }

  /** A frame is refused for a full queue only when 256 frames are queued. */
  lemma FullIsFull(cs: seq<Conn>, es: seq<Event>, max: nat, i: nat)
    requires IsRun(cs, es, max) && i < |es| && es[i].FindFull?
    ensures |cs[i].queue| == 256
  {
    RunStep(cs, es, max, i);
    QueueBound(cs, es, max, i);
    hide IsRun;
  }

  lemma ClosesStep(c: Conn, e: Event, c': Conn)
    requires Step(c, e, c')
    ensures c.closed || e.Close? || e.WriteError? <==> c'.closed
  {
  }

  /** The connection is closed exactly when it was closed or a write failed before. */
  lemma {:induction false} ClosedIff(cs: seq<Conn>, es: seq<Event>, max: nat, i: nat)
    requires IsRun(cs, es, max) && i < |cs|
    ensures i <= |es| && (cs[i].closed <==> exists j :: 0 <= j < i && (es[j].Close? || es[j].WriteError?))
  {
    assert |cs| == |es| + 1;
    if i > 0 {
      ClosedIff(cs, es, max, i - 1);
      RunStep(cs, es, max, i - 1);
      hide IsRun, Step;
      ClosesStep(cs[i - 1], es[i - 1], cs[i]);
      assert es[i - 1].Close? || es[i - 1].WriteError? ==>
             exists j :: 0 <= j < i && (es[j].Close? || es[j].WriteError?);
    }
  }
}
