# nmid in Dafny

nmid is an RPC broker. A client sends a job, the Go server picks a worker that registered the function,
forwards the job, and routes the worker's result back to the client. This project models the parts of
nmid where something can go wrong across several functions or several goroutines, and proves for-all
statements about them.

* **MessagePack codec of the PHP SDK** (`Msgpack`, `MsgpackRoundTrip`, `MsgpackFormats`, `MsgpackStable`,
  `MsgpackSmallest`, `MsgpackCodec`, `RetStruct`, `Decimal`, `Bytes`). Functions give the format; syntax trees
  for the formats of the specification say in which family and width a value is written; methods with a
  by-reference output and a by-reference offset are proved against them. PHP arrays are ordered
  lists of entries with integer or string keys, including PHP's turning of decimal string keys into integers.
* **Job dispatch and return** (`Dispatch`, `DispatchInv`, `DispatchRuns`, `DispatchMatching`,
  `DispatchLosses`, `DispatchChecks`, `DispatchAnswers`, `DispatchSteps`, `DispatchRaces`, `ServerObjects`).
  Every atomic action of every goroutine is an event; a run is any interleaving. Results are
  matched by their position in a channel, not by job id. It is proved what holds in every run, that matching
  is right exactly when results are routed in push order, that an ordering discipline achieves it, that an ordered run drops a result exactly when it is checked before the
  response is stored, which results pass the tests in any run, what every client is told, and by which runs a
  client gets another client's result or no answer.
* **Write queue and framing** (`WriteQueue`, `Framing`, `Totals`): byte accounting for any number of
  concurrent writers, and an end-to-end property from `Write` to the peer's extracted frames.
* **Node client** (`NodeClient`, `NodeMatching`, `BrokerCalls`, `BrokerStream`, `BrokerRaces`): pending calls
  in one queue per handle, error answers and lost connections included; composed with the dispatch protocol,
  which result each call is settled with; and composed with the write queue and the framing as well, the same
  from the broker's answers to the client's calls over a byte stream cut anywhere.
* **Function registry** (`FuncRegistry`): counters, deletion and the retry loop of the worker choice.
* **Pools, discovery, registration** (`Ownership`, `ClientPool`, `DirectPool`, `Discovery`, `Handshake`,
  `HandshakeExact`).
* **Scheduler** (`Int64`, `SchedulerShares`, `Scheduler`): zone weights in wrapping 64-bit arithmetic.
* **Job list** (`JobList`): the doubly linked list over the heap.
* **Wire layouts** (`Protocol`, `Layout`, `Wire`, `Programs`, `Relay`, `NodeRelay`, `DirectProto`): the
  packing code with its 32-bit lengths, exact decoders, a job's way through the three programs and back,
  and what the Go server's frames do in the Node client.

Objects that one goroutine updates are classes with `modifies` clauses; in-place loops are loops with
invariants. Concurrent protocols are state machines, one event per lock section, channel operation or
atomic operation, with invariants proved over every run.

Some promises of the code hold only under a condition. The condition is proved exact, and a run or input
shows the failure: matching of results (`DispatchMatching.MatchedIffPushOrder`, `DispatchRaces.WrongClient`),
lost replies (`DispatchLosses.LostIffEarly`, `DispatchRaces.LostReply`), results reaching the right call of a
Node client (`BrokerCalls.OwnIff`, with `BrokerRaces.WrongCall` for answers that cross and
`BrokerRaces.StrayResult` for the result of a call that an error answer had failed), registration of a ready
worker (`HandshakeExact.ReadyIffDelivered`, `Handshake.LateOkMisleads`), starvation of the direct pool
(`DirectPool.StarvedIffDry`, `DirectPool.FirstDialFails`), calls that wait in the client pool although it is
not full (`ClientPool.StrandedIff`, `ClientPool.FirstDialFails`, `ClientPool.OnlyClientDies`), eviction of
live workers (`FuncRegistry.EvictKeepsLiveIff`, `FuncRegistry.SharedIdEvictsLive`), deletion by status
(`JobList.JobList.DelListStatsJob`, `JobList.StaleHead`), panics of the server's decoders
(`Wire.DoJobPanicIff`, `Wire.AcceptedYetPanics`) and of the scheduler (`Scheduler.UseScheduler`,
`Scheduler.EmptyZonePanics`), and 64-bit unsigned integers in the codec (`MsgpackFormats.Uint64Iff`: one of 2^63
or more is read as a negative number, because PHP integers are signed).

Where code and comments disagree, the code is followed: `sdk/node/lib/worker/worker.js:161` says that a
deleted function is confirmed by PDT_OK, but the server sends none (`pkg/server/worker.go:160-175`);
`pkg/direct/pool_client.go:74-75` says that a full pool blocks, while the code polls; and
`pkg/client/pool_client.go:46-47` says that a call blocks only when the pool is at capacity, while a call that
waits is not woken when a client is retired or a dial fails.

`dafny verify dfyconfig.toml` checks the whole project.

## Model

| member | source | states |
|---|---|---|
| `Msgpack.KeyTextReadBack` | sdk/php/src/Msgpack.php:115-129 | a key written as text is the same key when PHP normalises it again |
| `Msgpack.NormKeyInjective` | sdk/php/src/Msgpack.php:255-264 | normalising a text key keeps its text, so two different texts are never merged into one key |
| `MsgpackRoundTrip.IntReadBack` | sdk/php/src/Msgpack.php:50-72 | each of the nine integer formats is read back to the same 64-bit integer, at any offset |
| `MsgpackRoundTrip.ValueReadBack` | sdk/php/src/Msgpack.php:26-48 | wherever the encoding of a supported value stands in a byte string, at any nesting depth, decoding there returns the value with Bin as string and moves the offset by exactly the encoding's length |
| `MsgpackRoundTrip.ElemsReadBack` | sdk/php/src/Msgpack.php:266-273 | the array loop returns the elements in order and ends right behind them |
| `MsgpackRoundTrip.PairsReadBack` | sdk/php/src/Msgpack.php:255-264 | the map loop returns the pairs in order, each key once, and ends right behind them |
| `MsgpackRoundTrip.RoundTrip` | sdk/php/src/Msgpack.php:11-24 | decode after encode, with any bytes before and after |
| `MsgpackRoundTrip.PrefixFree` | sdk/php/src/Msgpack.php:26-129 | an encoding that is a prefix of another is the same encoding of the same value |
| `MsgpackFormats.EncodeConforms` | sdk/php/src/Msgpack.php:26-129 | at any depth what is written is one of the forms of section "Formats" of the MessagePack specification, in the value's own family: nil, boolean, integer, string, bin, array or map |
| `MsgpackFormats.OwnFamily` | sdk/php/src/Msgpack.php:26-48 | by the first byte: bin tags exactly for Bin, string tags exactly for strings, array tags exactly for lists, map tags exactly for other arrays, and so on |
| `MsgpackFormats.BinBytes` | sdk/php/src/Msgpack.php:88-98 | the tag, the length and then the data themselves |
| `MsgpackFormats.Shortest` | sdk/php/src/Msgpack.php:50-129 | no form of the value in its own families, whatever the widths at any depth, is shorter than what the encoder writes |
| `MsgpackFormats.FormReads` | sdk/php/src/Msgpack.php:148-283 | every form of the specification without floats and extensions, in any widths and however nested, is read as its value and to its end; an array used as a key throws, and nothing else does |
| `MsgpackFormats.AnySpellingReads` | sdk/php/src/Msgpack.php:148-253 | so a peer may write a value in any widths: the decoder returns that value |
| `MsgpackFormats.Uint64Iff` | sdk/php/src/Msgpack.php:198-201 | a uint64 is read as itself if and only if it is below 2^63 |
| `MsgpackFormats.NullTags` | sdk/php/src/Msgpack.php:175-252 | unsupported tags read as null and cost one byte |
| `MsgpackFormats.KeyMeaning` | sdk/php/src/Msgpack.php:255-264 | the key of a PHP array that each kind of scalar becomes |
| `MsgpackFormats.PutMeans` | sdk/php/src/Msgpack.php:255-264 | a key that comes again keeps its place and gets the later value; a new key goes to the end |
| `MsgpackFormats.NumberCut` | sdk/php/src/Msgpack.php:187-222 | a number that is cut short makes PHP warn |
| `MsgpackFormats.StrCut` | sdk/php/src/Msgpack.php:275-283 | a string that is cut short is what there is of it, and the offset moves past the end |
| `MsgpackFormats.MissingElems` | sdk/php/src/Msgpack.php:266-273 | elements announced but missing at the end are null |
| `MsgpackStable.DecodedIsFine` | sdk/php/src/Msgpack.php:148-283 | whatever the decoder returns, on any bytes at any offset, is a value the encoder supports, free of Bin |
| `MsgpackStable.DecodeStable` | sdk/php/src/Msgpack.php:11-24 | decode, encode, decode gives what the first decode gave, for every input that decodes |
| `MsgpackSmallest.SmallestInt` | sdk/php/src/Msgpack.php:148-222 | no byte string that decodes to n is shorter than what encodeInt writes (smallest-format rule of section "Serialization: type to format conversion" of the MessagePack specification) |
| `MsgpackSmallest.SmallestStr` | sdk/php/src/Msgpack.php:74-86 | the same for strings, against all string and binary formats |
| `MsgpackSmallest.ContainerTags` | sdk/php/src/Msgpack.php:159-254 | first bytes of maps and arrays never decode to an integer or a string |
| `MsgpackCodec.IsList` | sdk/php/src/Msgpack.php:131-146 | true exactly for keys 0, 1, 2, … in order |
| `MsgpackCodec.EncodeValue` | sdk/php/src/Msgpack.php:26-48 | appends the specified encoding to the output and changes nothing before it; what that encoding is, family by family, is `MsgpackFormats.EncodeConforms` |
| `MsgpackCodec.EncodeArray` | sdk/php/src/Msgpack.php:100-113 | appends header and elements in order |
| `MsgpackCodec.EncodeMap` | sdk/php/src/Msgpack.php:115-129 | appends header and key/value pairs in order |
| `MsgpackCodec.EncodeToString` | sdk/php/src/Msgpack.php:11-16 | the output is the specified encoding, the one the round trip is about |
| `MsgpackCodec.DecodeAt` | sdk/php/src/Msgpack.php:148-253 | value and new offset are those of the specified decoder for every input and offset, truncated input and unusable keys included; what that decoder reads, format by format, is `MsgpackFormats.FormReads` |
| `MsgpackCodec.DecodeArray` | sdk/php/src/Msgpack.php:266-273 | the loop with its shared offset refines the recursive decoder |
| `MsgpackCodec.DecodeMap` | sdk/php/src/Msgpack.php:255-264 | the same for maps, later pairs replacing earlier ones of the same key |
| `RetStruct.ParseBuild` | sdk/php/src/RetStruct.php:10-32 | parse(build(c, m, d)) gives back c, m and d |
| `RetStruct.BuildBytes` | sdk/php/src/RetStruct.php:10-18 | the bytes: a map of Code, Msg and Data in this order, with Data in a bin format |
| `RetStruct.ParseCasts` | sdk/php/src/RetStruct.php:21-32 | whatever scalars a peer packs are read as PHP casts them |
| `RetStruct.ParseDefaults` | sdk/php/src/RetStruct.php:21-32 | missing fields read as 0 and empty text; what is no array is rejected, and nothing else is |
| `DispatchInv.InvKept` | pkg/server/optimize.go:168-233 | every event keeps: each frame in its one recorded place, jobs made for their own request, answers only for finished frames |
| `DispatchRuns.OnePlace` | pkg/server/optimize.go:59-78 | in every state of every run a client frame is in at most one of pool, dispatch, channel and return, and there once |
| `DispatchRuns.AcceptEnters` | pkg/server/optimize.go:184-194 | an accepted frame is in the pool and nowhere else |
| `DispatchRuns.LeavesByEnding` | pkg/server/optimize.go:194-233 | a frame leaves its last container only when no worker is found, its channel stays full, or the result holding it is rejected or replied to: none is silently lost |
| `DispatchRuns.FinishedForGood` | pkg/server/optimize.go:168-266 | a finished frame, one in no container, never reappears in one |
| `DispatchRuns.OneAnswer` | pkg/server/worker.go:204-249 | at most one answer per client frame; a RETURN_DATA carries that client's own handle and params |
| `DispatchRuns.NeverAnswered` | pkg/server/worker.go:204-249 | a frame that is finished without an answer is never answered later |
| `DispatchRuns.ChannelJobs` | pkg/server/optimize.go:251-266 | a job in channel (w, f) has WorkerId w and FuncName f, and f is its request's handle |
| `DispatchRuns.StatusForward` | pkg/server/worker.go:177-220 | over any stretch of a run a job's status only moves INIT, DOING, DONE, one level per step |
| `DispatchRuns.NeverSkips` | pkg/server/worker.go:177-179 | doWork never finds its job in another status than INIT |
| `DispatchMatching.RunFifo` | pkg/server/worker.go:108-117 | the jobs pushed on a channel are those popped, in order, followed by those in the channel |
| `DispatchMatching.MatchedIffPushOrder` | pkg/server/worker.go:204-220 | in every run the popped jobs are the ones their results name if and only if results were routed in push order |
| `DispatchMatching.OrderedInv` | pkg/server/optimize.go:194-227 | what one-at-a-time push-then-send, no refused send and in-order answers keep along a run |
| `DispatchMatching.OrderedMatches` | pkg/server/worker.go:177-220 | under that discipline the popped job's id is always the result's JobId |
| `DispatchMatching.OrderedReply` | pkg/server/worker.go:222-249 | … and every RETURN_DATA carries the Ret computed from that client's own params |
| `DispatchMatching.OrderedNoTimeout` | pkg/server/worker.go:108-117 | … and no result finds its channel empty |
| `DispatchLosses.PassesIffStored` | pkg/server/worker.go:209-220 | in an ordered run a result passes the tests of returnData if and only if the response of the popped job has been stored |
| `DispatchLosses.LostIffEarly` | pkg/server/worker.go:196-220 | so an ordered run drops a result exactly when it is checked before that store |
| `DispatchChecks.DroppedIff` | pkg/server/worker.go:204-220 | in every run, whatever the worker sends: the job a result is tested against is of its worker and was made from a client frame with its handle, and the result is dropped if and only if the response is not stored or the frame's parameters have another length than the result names |
| `DispatchChecks.CompletedWith` | pkg/server/worker.go:209-216 | a completed job holds the frame's own handle and parameters and the result's ret |
| `DispatchChecks.OtherLengthDropped` | pkg/server/worker.go:211-220 | a run in which a result of another length meets the first job: it is dropped and the client stays unanswered |
| `DispatchAnswers.ToldWhat` | pkg/server/optimize.go:168-233 | in every run: error for an empty handle or no parameters, rate limit when 1024 frames wait, can't-do without a worker or room in its channel, otherwise the frame's own handle and parameters with the ret of the result; no other event writes to a client |
| `DispatchAnswers.PoolFifo` | pkg/server/optimize.go:59-78 | frames are taken up in the order they were accepted |
| `DispatchAnswers.RunBounds` | pkg/server/optimize.go:41-55 | at most 1024 frames wait, 512 are dispatched at a time and 1024 jobs are in a channel |
| `DispatchAnswers.BoundsExact` | pkg/server/worker.go:88-92 | a new frame is accepted or refused and never both, and accepted if and only if it has a handle and parameters and fewer than 1024 frames wait; below the other bounds a frame is taken up and a job pushed |
| `DispatchRaces.HeadTakesAnyResult` | pkg/server/worker.go:204-236 | whatever job a result names, the head of the channel is completed with it when handle and params length agree |
| `DispatchRaces.WrongClient` | pkg/server/worker.go:204-236 | a run in which one client receives the result of another client's job |
| `DispatchRaces.LostReply` | pkg/server/worker.go:196-220 | an ordered run in which a result overtakes the storing of job.Response and its client's frame ends unanswered |
| `DispatchRaces.LostForGood` | pkg/server/worker.go:196-220 | however such a run goes on, that client is never answered |
| `ServerObjects.Connect.Write` | pkg/server/connect.go:220-243 | accepts exactly when bound and queue allow, leaves count and queue unchanged otherwise; names the protocol events of each outcome and takes exactly them |
| `ServerObjects.Connect.WriteHead` | pkg/server/connect.go:259-283 | one turn of the write loop, nil connection included, is a path of protocol events: the head frame is on the socket and uncounted, or the loop ends closed with a prefix of it written |
| `ServerObjects.SWorker.PushJobToChannelWithBackpressure` | pkg/server/optimize.go:251-266 | appends to the function's channel unless it is full, taking exactly the protocol's Push; other channels are untouched |
| `ServerObjects.SWorker.DispatchJob` | pkg/server/optimize.go:194-227 | the closure the pool runs: the job is made from its request, pushed and sent with its own handle, params and id, or, when the channel stays full, its client is told so; takes exactly Pick and then Push, Begin, Send and Store, or PushTimeout |
| `ServerObjects.ServeOne` | pkg/server/optimize.go:168-233 | the objects in a row, from an accepted request to the reply: the client gets its own handle, params and the worker's result |
| `ServerObjects.SWorker.PopJobFromChannel` | pkg/server/worker.go:108-117 | takes the head of the function's channel |
| `ServerObjects.SWorker.DoWork` | pkg/server/worker.go:177-202 | starts only an INIT job of this worker and sends it with its own handle, params and id, taking exactly the protocol's Begin, Send and Store |
| `ServerObjects.SWorker.ReturnData` | pkg/server/worker.go:204-249 | pops the head; it is completed and its client answered exactly when it is being done and was sent with the result's handle and parameter length, and is left alone otherwise; takes exactly the protocol's events for that result |
| `WriteQueue.AccountingKept` | pkg/server/connect.go:220-285 | every event of writers, loop and close keeps the byte count exact and the admitted bytes bounded |
| `WriteQueue.PendingExact` | pkg/server/connect.go:231-243 | in every interleaving pendingBytes is bytes queued, in flight and reserved; never negative; admitted bytes never exceed maxPendingBytes |
| `WriteQueue.SocketPrefix` | pkg/server/connect.go:245-285 | the bytes on the socket are always a prefix of the accepted frames in enqueue order |
| `WriteQueue.AdmittedIff` | pkg/server/connect.go:231-234 | a write is admitted exactly when the bytes pending with its own do not exceed the bound |
| `WriteQueue.QueueBound` | pkg/server/connect.go:236-242 | at most 256 frames are queued, and an admitted write gets in exactly when fewer are |
| `WriteQueue.ClosedIff` | pkg/server/connect.go:245-285 | closed exactly when it was closed or a write failed |
| `WriteQueue.LoopEnds` | pkg/server/connect.go:245-285 | the loop ends after a write error, or after a close with an empty queue and every byte uncounted that no writer has reserved |
| `WriteQueue.SocketStops` | pkg/server/connect.go:247-258 | after that nothing more goes to the socket |
| `WriteQueue.OverIsClosed` | pkg/server/connect.go:247-278 | the loop stops writing only on a closed connection |
| `Framing.NothingLost` | sdk/node/lib/client/client.js:120-139 | packets followed by the leftover are exactly the bytes received, and each packet is one frame |
| `Framing.Resume` | sdk/node/lib/client/client.js:112-117 | bytes that come later only extend what was extracted before |
| `Framing.ChunksDoNotMatter` | sdk/node/lib/client/client.js:112-139 | however the stream is cut, the same packets come out and the same bytes stay buffered |
| `Framing.PrefixYieldsWholeFrames` | sdk/node/lib/worker/agent.js:148-165 | from a prefix of a stream of frames exactly the complete frames are extracted |
| `Framing.EndToEnd` | pkg/server/connect.go:236-283 | in every run of the connection and for every chunking, the peer has exactly the complete accepted frames, in order |
| `NodeClient.ReplySettlesOldest` | sdk/node/lib/client/client.js:154-166 | a reply settles the oldest unsettled call of its handle and touches no other handle |
| `NodeClient.NothingSkipped` | sdk/node/lib/client/client.js:120-139 | packets taken off the buffer and what stays buffered are the bytes received, also when a packet throws |
| `NodeClient.ClassifyMeans` | sdk/node/lib/client/client.js:127-158 | which packets fail the pending calls, which are replies to which handle, and which throw, each if and only if |
| `NodeClient.ThrowStops` | sdk/node/lib/client/client.js:120-139 | of a chunk exactly the packets in front of the first that throws are acted on, in order |
| `NodeClient.CallsConserved` | sdk/node/lib/client/client.js:141-212 | in every run calls made on a handle are the calls gone, in order, then the calls pending; no empty queue is kept |
| `NodeClient.Client.EnqueueCall` | sdk/node/lib/client/client.js:168-171 | appends to the handle's queue |
| `NodeClient.Client.HandleResp` | sdk/node/lib/client/client.js:154-166 | shifts the handle's queue, gives that call the reply's packet, and deletes the queue when empty |
| `NodeClient.Client.FailPending` | sdk/node/lib/client/client.js:176-183 | every pending call fails once, in order behind those gone: each promise is rejected, each callback dropped; the map is empty |
| `NodeClient.Client.OnData` | sdk/node/lib/client/client.js:112-152 | acts on exactly the complete packets in order, up to the first that cannot be read, and keeps exactly the rest of the buffer in both cases |
| `FuncRegistry.FuncMap.AddFunc` | pkg/server/function.go:33-64 | appends the worker under the name; counters, names and balance type stay right |
| `FuncRegistry.FuncMap.DelAllFunc` | pkg/server/function.go:75-85 | removes the name and counts it |
| `FuncRegistry.FuncMap.DelWorkerFunc` | pkg/server/function.go:87-123 | removes one entry of the worker, and the function when that was its last |
| `FuncRegistry.FuncMap.CleanWorkerFunc` | pkg/server/function.go:125-133 | removes one entry of the worker from every function, in any visiting order |
| `FuncRegistry.FuncMap.DelWorker` | pkg/server/function.go:206-234 | the same, but keeps functions whose list becomes empty |
| `FuncRegistry.DeletionTakesOnePerFunction` | pkg/server/function.go:105-116 | as multisets, each named function that lists the worker loses exactly one entry of it; the two deletions agree |
| `FuncRegistry.Evict` | pkg/server/worker.go:361-366 | when one id always means one connection, evicting a worker that is gone leaves every live entry of every function in order |
| `FuncRegistry.EvictKeepsLiveIff` | pkg/server/function.go:105-116 | an eviction by id removes no live entry if and only if in no function the first entry of that id is live |
| `FuncRegistry.SharedIdEvictsLive` | pkg/server/function.go:105-116 | two connections of one id, the first alive: evicting the second takes the live one off the list and leaves the dead one |
| `FuncRegistry.FuncMap.GetBestWorker` | pkg/server/function.go:135-204 | ends for every sequence of random choices; returns only a listed worker that still runs, and none only when the list is used up; every worker it evicted was listed for the function with its connection gone when its turn came, and the registry is the old one with each of them in turn taken out of every function, so unchanged when none was; with one connection per id, finds a live worker if there is one and removes no live entry anywhere |
| `FuncRegistry.FuncMap.CloseSelfWorker` | pkg/server/worker.go:361-366 | a worker whose connection is gone loses one entry in every function that lists it, not only in the one being searched |
| `FuncRegistry.ForgottenEverywhere` | pkg/server/function.go:125-133 | registered for two functions and gone: it is forgotten in both, and both functions with it |
| `ClientPool.PoolExact` | pkg/client/pool_client.go:48-114 | in every interleaving created is idle plus borrowed plus dialling or retiring, within 0..poolSize, and each client has one owner |
| `ClientPool.NeverFull` | pkg/client/pool_client.go:103-113 | the full-channel branch of put is never taken and no decrement meets zero |
| `ClientPool.DialsBelowCapacity` | pkg/client/pool_client.go:48-114 | in every run a new client is claimed only below capacity and a call goes on to wait only at it; a client is retired exactly when it is found dead |
| `ClientPool.StrandedIff` | pkg/client/pool_client.go:46-114 | in every reachable state a waiting call can never be served without a new call, whatever happens, if and only if nothing is idle and every other call waits too, has ended, or only has its claim left to drop |
| `ClientPool.FirstDialFails` | pkg/client/pool_client.go:48-83 | for every pool size a run reaches such a state with room in the pool: the first dial fails and its call goes on to wait |
| `ClientPool.OnlyClientDies` | pkg/client/pool_client.go:88-114 | so does a pool of one whose client dies in use while another call waits: put lowers the count and wakes nobody |
| `DirectPool.PoolExact` | pkg/direct/pool_client.go:48-110 | the same accounting; no idle or used entry is without a connection, and one whose connection failed is cleared |
| `DirectPool.DeadBranches` | pkg/direct/pool_client.go:83-126 | no run receives a nil entry, calls with one, or finds the channel full |
| `DirectPool.DialsBelowCapacity` | pkg/direct/pool_client.go:48-63 | in every run a dial is tried only below capacity and before any dial error; a call that gets no connection waits and changes nothing else |
| `DirectPool.StickyRun` | pkg/direct/pool_client.go:52-63 | after one dial error the number of connections never rises again |
| `DirectPool.StarvedIffDry` | pkg/direct/pool_client.go:48-98 | in every reachable state no call is ever served again, whatever happens, if and only if a dial error is remembered, nothing is idle and no call holds a working connection |
| `DirectPool.FirstDialFails` | pkg/direct/pool_client.go:59-63 | for every pool size a run reaches such a state: the first dial fails |
| `Discovery.InvKept` | pkg/registry/discovery/discovery.go:180-251 | every event keeps: a stale registered resolver is awaited |
| `Discovery.NeverLost` | pkg/registry/discovery/discovery.go:601-629 | in every interleaving a registered resolver that has not fetched the latest store has an event pending, is between receive and fetch, or is about to be signalled |
| `Discovery.QuietMeansCurrent` | pkg/registry/discovery/discovery.go:226-240 | with nothing in flight for it, a resolver holds the latest instances |
| `Discovery.CatchesUp` | pkg/registry/discovery/discovery.go:200-240 | in every reachable state a stale resolver is at most four steps away from the latest instances, all of them of work already pending (signals, receives, asked-for fetches) |
| `Discovery.MarkedIff` | pkg/registry/discovery/discovery.go:180-251 | in every run a resolver is registered exactly when built and not closed since, its channel holds an event exactly when it was signalled since its last receive, and its Build owes it one exactly when the app was known and none has been sent |
| `Discovery.ReadersCount` | pkg/registry/discovery/discovery.go:226-240 | the consumers between receive and fetch are the receives not yet followed by their fetch |
| `Discovery.StoreMakesStale` | pkg/registry/discovery/discovery.go:601-629 | a store makes every registered resolver of its app stale, and no other |
| `Discovery.SignalsOwnApp` | pkg/registry/discovery/discovery.go:601-629 | a broadcast signals only resolvers registered at that moment, for the app it is about |
| `Discovery.SignalsOnce` | pkg/registry/discovery/discovery.go:601-629 | a broadcast has each resolver of the app once, and ends when it has signalled them all |
| `Discovery.ClosedForGood` | pkg/registry/discovery/discovery.go:241-251 | a closed resolver is never signalled again |
| `Handshake.RunInv` | sdk/node/lib/worker/worker.js:139-149 | without a timeout each server has handled exactly the messages before the current one |
| `Handshake.OneInFlight` | sdk/node/lib/worker/agent.js:37-60 | messages, confirmations and losses of an agent equal its waiting resolvers, at most one |
| `Handshake.ReadyMeansRegistered` | sdk/node/lib/worker/worker.js:118-153 | ready without a timeout means that every server added exactly the non-empty names, once and in order, and knows the worker's name |
| `Handshake.LateOkMisleads` | sdk/node/lib/worker/agent.js:46-53 | for every worker and function name a run in which a late PDT_OK makes the worker ready with nothing registered |
| `Handshake.NothingToDo` | sdk/node/lib/worker/worker.js:118-125 | without an agent or a function the call fails at once, and no server hears of it |
| `Handshake.ConnectErrorEnds` | sdk/node/lib/worker/worker.js:126-132 | one agent that cannot connect ends the call: not ready, and no server has heard of the worker |
| `HandshakeExact.RunConserved` | sdk/node/lib/worker/worker.js:139-149 | in every run, timeouts and losses included, the names sent to a server are those added, in flight or dropped, in order when none is dropped |
| `HandshakeExact.ReadyIffDelivered` | sdk/node/lib/worker/worker.js:118-153 | in every run a ready worker is fully registered at a server, in order, if and only if no function name is in flight to it and none was dropped; the same for the worker's name |
| `HandshakeExact.FunctionIffDelivered` | pkg/server/worker.go:138-158 | the same function by function |
| `HandshakeExact.ReadyAfter` | sdk/node/lib/worker/worker.js:126-153 | a ready worker took one step per agent to connect and three per agent and message: none is skipped or repeated |
| `HandshakeExact.NeverStuck` | sdk/node/lib/worker/agent.js:37-60 | in every state of every run the call is over or its next step is possible, if need be the timeout |
| `HandshakeExact.OksCounted` | pkg/server/worker.go:138-158 | each message is confirmed once, and each confirmation reaches its agent once or is lost |
| `Int64.WrapMul` | pkg/registry/registry.go:125-128 | multiplying wrapped values wraps the true product |
| `Int64.ParseText` | pkg/registry/registry.go:135-141 | a written weight is read back, for every int64 |
| `Int64.ParseSigns` | pkg/registry/registry.go:103-103 | a plus sign changes nothing, a minus sign negates, and what does not fit is the nearest int64 |
| `Int64.ParseJunk` | pkg/registry/registry.go:103-103 | digits that something else follows read as 0, unless they alone exceed 64 bits |
| `SchedulerShares.FactorExact` | pkg/registry/registry.go:129-132 | the division is exact: a zone's factor is its scheduled weight times the other zones' totals |
| `SchedulerShares.FactorMeans` | pkg/registry/registry.go:125-132 | with overflow as well: the truncated quotient of an int64 that differs from the true product by a multiple of 2^64 |
| `SchedulerShares.ZoneShare` | pkg/registry/registry.go:133-142 | the new weights of a zone sum to scheduled weight times the product of all totals, and none overflows |
| `Scheduler.WeightMeans` | pkg/registry/registry.go:102-106 | a positive number is the weight, as far as it fits; nothing, no number, zero and negative numbers mean ten |
| `Scheduler.ScheduledMeans` | pkg/registry/registry.go:95-113 | the destinations of every rule for the zone, rule after rule |
| `Scheduler.GatheredMeans` | pkg/registry/registry.go:98-110 | the instances of the destinations that exist, in that order |
| `Scheduler.TotalsMean` | pkg/registry/registry.go:99-109 | the int64 total of each destination that exists, in that order |
| `Scheduler.LastFactor` | pkg/registry/registry.go:129-132 | a zone scheduled more than once gets the factor of its last entry |
| `Scheduler.OtherZones` | pkg/registry/registry.go:133-142 | an instance labelled with another zone keeps its weight |
| `Scheduler.BadZoneIsMissingOrEmpty` | pkg/registry/registry.go:98-112 | short of overflow the zones that make the call panic are the missing and the empty ones |
| `Scheduler.FactorsGiveShares` | pkg/registry/registry.go:125-142 | when all scheduled zones are present once, non-empty and fit, the computed factors are exact and nothing panics |
| `Scheduler.Collect` | pkg/registry/registry.go:95-114 | destinations, totals and instances collected for a source zone |
| `Scheduler.FixWeights` | pkg/registry/registry.go:129-132 | panics exactly when a total is missing or zero |
| `Scheduler.Rewrite` | pkg/registry/registry.go:133-142 | each map gets its weight times the zone's factor once for every instance that has the map, in order; a nil map panics |
| `Scheduler.SharedTwice` | pkg/registry/registry.go:133-142 | two instances of a zone that share a map: the weight is multiplied by the factor twice |
| `Scheduler.UseScheduler` | pkg/registry/registry.go:89-144 | the fallbacks; panics if and only if a scheduled zone is bad or a map is nil; otherwise every map is rewritten by the zones' factors, shared maps included, and with separate maps every zone gets its share, weight ratios inside a zone are kept, and each instance of it holds the text of its old weight (ten without one) times the scheduled weight times the other totals, its other entries unchanged |
| `Scheduler.MixedZone` | pkg/registry/registry.go:102-142 | a zone with an unweighted instance and one of weight n, scheduled with k: afterwards they hold the texts of 10k and nk |
| `Scheduler.EmptyZonePanics` | pkg/registry/registry.go:129-132 | one scheduled zone has an instance and the other none: the call panics |
| `JobList.JobList.PushList` | pkg/server/job.go:75-107 | appends; the list stays a queue if and only if the job was not in it and the count fits 32 bits |
| `JobList.JobList.PopList` | pkg/server/job.go:109-132 | removes the front, also when the head pointer is stale |
| `JobList.JobList.GetListJob` | pkg/server/job.go:203-234 | the first job with the id, or none when there is none |
| `JobList.JobList.DelListStatsJob` | pkg/server/job.go:165-201 | counts and unlinks the matching jobs; the list is the order-preserving filter if and only if the head does not match or every job does |
| `JobList.StaleHead` | pkg/server/job.go:165-201 | a matching head in front of another job: afterwards the head pointer is on the unlinked job and the list is no queue |
| `JobList.LeftOver` | pkg/server/job.go:165-201 | what is left is led by the old head exactly when the head does not match |
| `Layout.FrameParts` | pkg/server/io.go:226-246 | the three header words and the content of a packed frame |
| `Layout.Packer.Put` | pkg/server/io.go:91-145 | the next part of the buffer is the copied bytes, or the slice is out of range |
| `Wire.DoJobIff` | pkg/server/io.go:193-221 | the server reads a job exactly when the input, zero-filled for missing parameter bytes, is that job packed |
| `Wire.WorkerReturnIff` | pkg/server/io.go:150-192 | the same for a worker's result |
| `Wire.GetDataIff` | pkg/worker/response.go:79-105 | the worker reads a job exactly when it is that job packed, followed by anything |
| `Wire.ServerReturnIff` | pkg/client/response.go:105-125 | the client reads a result exactly when it is that result packed, followed by anything |
| `Wire.ReadFrameIff` | pkg/server/connect.go:287-324 | a frame is taken off the stream exactly when the stream starts with it, from a known kind of peer and within 32 MiB |
| `Wire.DoJobPanicIff` | pkg/server/io.go:193-221 | decoding a job panics exactly when the fixed part, or the handle with the length behind it, is not all there |
| `Wire.WorkerReturnPanicIff` | pkg/server/io.go:150-192 | decoding a result panics exactly when one of its length words lies past the end |
| `Wire.AcceptedYetPanics` | pkg/server/connect.go:304-323 | a frame accepted off the stream can still make the decoder panic |
| `Programs.ClientRequest.ContentPack` | pkg/client/request.go:35-64 | the packed job, or a panic exactly when the 32-bit total wraps |
| `Programs.FillDoJob` | pkg/client/request.go:44-60 | the buffer filled by the cursor is the job layout |
| `Programs.EncodePack` | pkg/worker/request.go:144-154 | the frame around packed data, or a panic exactly when the length wraps |
| `Programs.ServerRequest.ReqDecodePack` | pkg/server/io.go:148-223 | the request's fields are those of the exact decoder; other input leaves them alone |
| `Programs.ServerResponse.GetResContent` | pkg/server/io.go:92-145 | the content for each response type |
| `Programs.ServerResponse.ResEncodePack` | pkg/server/io.go:226-246 | one server frame around that content |
| `Programs.WorkerRequest.RetPack` | pkg/worker/request.go:107-141 | the packed result with handle, params and job id of the job, or a panic exactly when the total wraps |
| `Relay.RequestRelay` | pkg/server/io.go:92-118 | client pack, server decode, server pack, worker decode: same handle, params, types and job id |
| `Relay.ReplyRelay` | pkg/client/response.go:83-128 | worker pack, server decode, server pack, client decode: same handle, params and ret |
| `Relay.OpenIff` | pkg/worker/response.go:57-77 | a frame is opened exactly when header and announced bytes are all there; its type and what is behind the header are read |
| `Relay.OtherFrames` | pkg/client/response.go:83-128 | a frame of another type is no job for a worker and no answer for a client |
| `Relay.FrameHeads` | pkg/server/io.go:226-246 | the first eight bytes of the four frames on a job's way |
| `Relay.CarryRequest` | pkg/worker/response.go:57-108 | the programs run in a row give the worker the client's job |
| `Relay.CarryReply` | pkg/server/worker.go:209-236 | and give the client the worker's result |
| `NodeRelay.ResultIsReply` | sdk/node/lib/client/client.js:127-158 | a result packed by the Go server is a reply to exactly the handle it carries |
| `NodeRelay.ErrorFailsAll` | sdk/node/lib/client/client.js:141-148 | one error answer of the server fails every pending call of the connection |
| `NodeRelay.ResultsSettleInOrder` | sdk/node/lib/client/client.js:120-166 | a sequence of server results settles, in that order, the oldest call of each handle, and none of them throws |
| `NodeMatching.Waiting` | sdk/node/lib/client/client.js:141-183 | in every log of calls, replies, error answers and cuts, the calls that wait on a handle are those made since the last failure, less the first ones replied to |
| `NodeMatching.NthReplyNthCall` | sdk/node/lib/client/client.js:154-171 | the n-th reply since the last failure that finds a call waiting is given to the n-th call made since |
| `NodeMatching.GivenIsSettled` | sdk/node/lib/client/client.js:154-183 | the calls settled on a handle, in order and each with its packet, are those given a reply; failed ones are never among them |
| `NodeMatching.OwnIff` | sdk/node/lib/client/client.js:141-183 | in every log that answers no request twice each settled call has the reply to its own request if and only if replies come in the order of the calls made since the last failure and no reply to a call that had failed comes while a later call on the handle is unanswered |
| `NodeMatching.SinceMeans` | sdk/node/lib/client/client.js:176-183 | a call counts as made since the last failure exactly when no error answer and no cut comes behind it |
| `NodeMatching.OwnIffCallOrder` | sdk/node/lib/client/client.js:154-171 | so a client that hears no error has its own replies exactly when they come in call order |
| `BrokerCalls.HeardIsSettled` | sdk/node/lib/client/client.js:135-166 | a RETURN_DATA frame of the broker settles the oldest call of its handle with that frame |
| `BrokerCalls.OwnIff` | pkg/server/worker.go:222-249 | in every run of the broker and for every log of a client that fits it, error answers included, each settled call has the answer to its own request if and only if answers come in the order of the calls since the last failure and no result of a failed call comes while a later call on the handle is unanswered |
| `BrokerCalls.OwnIffRequestOrder` | pkg/server/worker.go:222-249 | so for a client that heard no error: if and only if its answers on the handle come in request order |
| `BrokerCalls.OrderedCallsGetOwnRet` | pkg/server/worker.go:204-249 | in an ordered run, with answers in that order and no stray, every settled call has exactly the packet of its own handle, params and the Ret computed from them, whatever error answers came in between |
| `BrokerRaces.WrongCall` | pkg/server/optimize.go:194-227 | an ordered run and a fitting log in which two calls given to two workers are each settled with the other's result |
| `BrokerRaces.StrayResult` | sdk/node/lib/client/client.js:143-148 | an ordered run and a fitting log with answers on the handle in request order in which a call is settled with the result of an earlier one that an error answer on another handle had failed |
| `BrokerStream.HearsInOrder` | pkg/server/connect.go:236-283 | in every run of the broker and of the client's connection, however the bytes are cut and whenever the client calls, the client's state is that of a log in which it has heard, in order, the first answers written to it |
| `BrokerStream.StreamCallsGetOwnRet` | sdk/node/lib/client/client.js:112-183 | broker, write queue, byte stream and client together: under the same conditions every call the client has settled has exactly the packet it is owed |
| `DirectProto.PackFrame` | pkg/direct/proto.go:34-41 | the frame layout |
| `DirectProto.PackCall` | pkg/direct/proto.go:43-52 | the call layout |
| `DirectProto.PackReply` | pkg/direct/proto.go:72-78 | the reply layout |
| `DirectProto.UnpackCall` | pkg/direct/proto.go:54-70 | never reads out of bounds; what it returns is packed at the start of the input |
| `DirectProto.UnpackReply` | pkg/direct/proto.go:80-90 | the same for replies |
| `DirectProto.CallIff` | pkg/direct/proto.go:43-70 | succeeds with (s, p) if and only if the input is PackCall(s, p) followed by some tail |
| `DirectProto.ReplyIff` | pkg/direct/proto.go:72-90 | the same for replies |

## Left out

- Sockets, dialling, deadlines, TLS, the HTTP and WebSocket gateways, etcd and the discovery HTTP calls: only the step they cause is modelled (success, failure, chunk received).
- Metrics, dashboard, logging, alerts, tracing, configuration, IP lists, rate limiters and circuit breaker: plumbing around unseen libraries.
- The synchronous `doJob` and `RunWorker` paths, and the HTTP-client branch of `returnData`: the server's read loop runs the asynchronous ones.
- `JobList.DeListJob`: it dereferences both neighbours and does not adjust Size, so it keeps no queue.
- `JobDataList`: a thin wrapper over a library list.
- The LRU and weighted branches of `GetBestWorker`: no registration selects them.
- Pool `Close` and use after it: it resets the accounting on purpose.
- Shared memory below one event: `Dispatch`, `WriteQueue`, `ClientPool`, `DirectPool`, `Discovery` and `Handshake` are state machines on values, so aliasing and data races inside one atomic action, such as unlocked fields of a registry entry, are not captured; registry operations are atomic.
- `Dispatch`: the result router's queue and the direct fallback are both "a result waits, then pops"; a worker is a peer that may send any result at any time.
- PHP floats, PHP warnings on truncated MessagePack beyond the fact that one occurs, integers outside 64 bits, and values PHP would convert by numeric-string casts in `RetStruct.parse` (an explicit outcome, `NoCast`).
- Decoding params to maps, and the text encoding of handles: handles are byte strings or opaque strings.
- The 32 MiB limit of the worker's own frame reader: `Relay` applies the server's.
- Slices past the length but within the capacity of a Go buffer: every buffer here is made with capacity equal to its length.
- FuncRegistry.FuncMap.GetBestWorker: the clauses on live workers need one connection per id, which `utils.GetId` (a nanosecond count within the second) does not ensure; `FuncRegistry.EvictKeepsLiveIff` says what happens otherwise.
- FuncRegistry.Evict: stated for registries in which one id means one connection; `FuncRegistry.EvictKeepsLiveIff` is the exact statement for all of them.
- Scheduler.UseScheduler: the shares are promised for instances with separate metadata maps; maps that instances share are rewritten more than once, as stated, and `Scheduler.SharedTwice` shows what that does.
- ServerObjects.Connect.WriteHead: the socket takes at least one byte per successful write.
- ServerObjects.SWorker.PushJobToChannelWithBackpressure: room that appears during the 100 ms wait is a later Push event of the protocol, not part of this call.
- ServerObjects.SWorker.PopJobFromChannel: a job that arrives during the 50 ms wait is a later PopHead event of the protocol.
- ServerObjects.SWorker.ReturnData: the branch for HTTP clients is not modelled, nor a job without a client.
- MsgpackCodec.DecodeAt: where a fixed-width field is cut short PHP warns and goes on with a value of its own; the model stops with that fact.
- The Python, Java, Rust and PHP copies of the wire layouts, framing and pending queues: they repeat these.
