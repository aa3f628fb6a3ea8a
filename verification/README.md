# File transfer benchmarks: a verified model

This project models, in Dafny, a file server that several transport libraries implement, the
clients that download from it, and the scripts that measure them, and proves properties of
whole runs of it.

## The system

**The epoll file server and its clients.** Any number of workers share one listening socket.
Each has an epoll set and a fixed table of clients: two parallel arrays and a count, with
swap-with-last removal. A worker takes a batch of events, accepts in a loop, pushes partial
sends, and closes. There is no header: the client reads until the connection is closed.

- `ClientTable` has the two arrays and the map they stand for.
- `WorkerLoop` has the worker twice: as the nested loops of the server over its arrays, run on
  the results its system calls get, and as an automaton that stops at every system call. The
  loops are proved to make the calls of the automaton.
- `FileServer` puts N automata, the descriptor table, the interest sets, the accept queue, the
  byte streams and the clients into one transition system. A run is any interleaving. Resources
  carry the number of their connection, so that one descriptor number can stand for different
  connections at different times.
- `ServerInvariant` and `ServerSteps` prove one invariant of all runs. `ServerTheorems`,
  `Delivery` and `Progress` say what follows: events hit the connections they were reported
  for, connections and descriptors are neither lost nor closed twice, the client's file is what
  was sent, and the work is bounded and can always go on.
- `BatchEffects` says what a worker does about each event of a batch, in terms of its calls on
  that connection, what it does with an accepted descriptor, and when its loops end.
- `Receivers` has the blocking, the non-blocking and the counting receive loops, and the counting
  loops of asio and corosio.

**Five senders.** `Senders` has the send loops of all five servers over an abstract transport,
and one abstract sender that they all refine: an epoll step per event, two partial-write loops,
a callback that restarts itself over a shared offset, and a loop over fixed chunks. `ServedStreams`
shows that in every run of the whole system the epoll server is that sender for each connection.

**The measurement pipeline.** `EnergyCounter`, `Statistics`, `Campaign`, `MasterSummary`,
`Winners` and `Accounting` follow the numbers from the energy counter and the benchmark reports
through the summaries of the libraries to the table of all libraries, its winners and its
averages. `Sorting`, `Grouping` and `Orders` have what Python's `sorted`, dictionaries and tuples
contribute.

## What is supposed of the environment

- TCP is a reliable in-order byte stream (section 2.2 of RFC 9293), and an orderly close delivers
  what was accepted for sending before it (section 3.6 of RFC 9293). The network or the client's
  host may reset a connection at any time.
- One `epoll_wait` reports each descriptor at most once, and only descriptors that are registered
  with it and still open. `accept` and `epoll_create1` return a number that is not in use.
  `send` takes at most what it is offered. Every other result is free.
- Clients never write to the server.
- The end of the file is reported to a receiver only when the sender has ended and all that is on
  the wire was delivered. A write of the asio server that throws leaves nothing on the wire.
- A benchmark process runs one iteration; a skipped one is reported with an error.
- Floating-point numbers are real numbers, and a standard deviation is the non-negative root of
  the sample variance.

## Where the documentation differs

The model follows the code. The server of `bsd-sockets` uses epoll, although
`bsd-sockets/README.md:115` says `poll()`. The wake-up pipes that
`async-berkeley/README.md:244` describes are not in the code. `bsd-sockets-v/tcpserver/server.cpp`
is the same server as that of `bsd-sockets` and is modelled once.

Three properties that one might expect do not hold, and the model says when they do: a client
or benchmark that reports success may have a truncated file (`Delivery.TruncatedSuccess` and
`Accounting.ResetIsSuccess`; `Delivery.EndToEnd` and `Accounting.EndOfFileDecides` say when it has
not); the fallback from seconds to milliseconds also multiplies the number of values
(`MasterSummary.FallbackIsSound`); and the table depends on the order of the files exactly when two
of them have the same name and disagree on a case (`MasterSummary.RowsForgetFileOrder`).

## Model

| member | source | states |
|---|---|---|
| ClientTable.FindClientIndex | bsd-sockets/tcpserver/server.cpp:124-136 | the index found is that of the first slot of the descriptor, or the number of slots |
| ClientTable.FindIsLookup | bsd-sockets/tcpserver/server.cpp:124-136 | on distinct descriptors the search succeeds exactly for the keys of the map that the table stands for, and finds its value |
| ClientTable.RemoveClient | bsd-sockets/tcpserver/server.cpp:148-155 | the two arrays after the in-place removal hold the swap-with-last of the old slots, and the unused tail stays (-1, 0) |
| ClientTable.RemoveAtIsMapDeletion | bsd-sockets/tcpserver/server.cpp:148-155 | swap-with-last deletes exactly one key; every other descriptor keeps its own offset, and descriptors stay distinct |
| ClientTable.AddClient | bsd-sockets/tcpserver/server.cpp:235-237 | the two arrays after an accept hold the old slots and a new one with offset 0; the unused tail stays (-1, 0) |
| ClientTable.InsertIsMapInsertion | bsd-sockets/tcpserver/server.cpp:235-237 | adding a new descriptor inserts it into the map with offset 0 and changes no other offset |
| ClientTable.SetSentIsMapUpdate | bsd-sockets/tcpserver/server.cpp:253-254 | storing an offset changes the map at that descriptor only |
| WorkerLoop.SendFileStep | bsd-sockets/tcpserver/server.cpp:97-118 | status and new offset of one send step, and the one call it makes, are those of the automaton, for every return value and errno |
| WorkerLoop.AcceptLoop | bsd-sockets/tcpserver/server.cpp:158-269 | for every sequence of system call results the nested loops make exactly the calls of the automaton, and return exactly when it exits |
| WorkerLoop.OpenEpoll | bsd-sockets/tcpserver/server.cpp:168-182 | creates and fills the epoll set as the automaton does, and returns with it closed when the listener cannot be registered |
| WorkerLoop.RunBatch | bsd-sockets/tcpserver/server.cpp:201-262 | the loop over a batch follows the automaton up to the next wait |
| WorkerLoop.AcceptBurst | bsd-sockets/tcpserver/server.cpp:205-241 | the accept loop follows the automaton and stops at a full table or the first failed accept |
| WorkerLoop.AdmitClient | bsd-sockets/tcpserver/server.cpp:221-237 | an accepted descriptor gets a slot, or is closed when it cannot be made non-blocking or registered |
| WorkerLoop.ServeClient | bsd-sockets/tcpserver/server.cpp:243-260 | an event of a client follows the automaton: skip, hang-up, send step |
| WorkerLoop.ServeWritable | bsd-sockets/tcpserver/server.cpp:253-260 | a writable client is sent to once and removed on status 1 or -1 |
| WorkerLoop.RemoveClientAndClose | bsd-sockets/tcpserver/server.cpp:138-156 | deregisters, closes, and removes the slot, in this order |
| WorkerLoop.CloseAll | bsd-sockets/tcpserver/server.cpp:264-268 | closes every slot and then the epoll descriptor |
| ServerSteps.StepKeeps | bsd-sockets/tcpserver/server.cpp:158-269 | one step of any worker, client or the network, with any result the kernel can give, keeps the whole-system invariant |
| ServerTheorems.EventsHitTheirConnections | bsd-sockets/tcpserver/server.cpp:184-262 | in every interleaving of any number of workers, every event still to be handled finds a live slot and the very connection it was reported for; so do the send, deregistration and close it leads to |
| ServerTheorems.SkipIsUnreachable | bsd-sockets/tcpserver/server.cpp:243-246 | the branch that skips an event without a slot is never taken |
| ServerTheorems.DescriptorReuseIsHarmless | bsd-sockets/tcpserver/server.cpp:184-262 | whatever any worker frees and accepts while a batch is handled, an entry not yet handled names what its number named when epoll_wait returned |
| ServerTheorems.ExactlyOnePlace | bsd-sockets/tcpserver/server.cpp:201-262 | every connection is in exactly one place: not connected, queued, in flight in one accept, in one slot of one table, or closed |
| ServerTheorems.TablesAreDisjoint | bsd-sockets/tcpserver/server.cpp:356-358 | live slots of two workers, or two live slots of one, never hold the same descriptor |
| ServerTheorems.InterestIsTable | bsd-sockets/tcpserver/server.cpp:226-237 | between removals the interest set of a worker is its table and the listener, and every entry names an open descriptor |
| ServerTheorems.CallsNameOwnDescriptors | bsd-sockets/tcpserver/server.cpp:158-269 | every system call names an open descriptor that this worker obtained itself; a send offers exactly the rest of the payload and never an empty buffer |
| ServerTheorems.ExitedHoldsNothing | bsd-sockets/tcpserver/server.cpp:264-268 | a worker that has left its loop has nothing open, on every path out |
| ServerTheorems.JoinedHoldsNothing | bsd-sockets/tcpserver/server.cpp:360-364 | once all workers are joined only the listening socket is open |
| ServerTheorems.Balance | bsd-sockets/tcpserver/server.cpp:138-269 | over any run what was obtained and not closed is what is open at the end |
| ServerTheorems.ClosedExactlyOnce | bsd-sockets/tcpserver/server.cpp:264-268 | whatever an exited worker obtained it obtained once and closed exactly once |
| ServerTheorems.NeverClosedTwice | bsd-sockets/tcpserver/server.cpp:138-146 | in every run, finished or not, no connection is closed twice |
| ServerTheorems.WorkerIsItsOwnLoop | bsd-sockets/tcpserver/server.cpp:356-358 | among any other workers a worker makes the calls and comes to the place of the automaton on its own replies, whatever replies follow |
| ServerTheorems.WorkerIsAcceptLoop | bsd-sockets/tcpserver/server.cpp:356-362 | with AcceptLoop: the calls a worker makes in a run of the system are the very calls of the nested loops on the replies it got, so what is proved of its sends and closes holds of theirs |
| BatchEffects.BatchIsHandled | bsd-sockets/tcpserver/server.cpp:184-262 | in every interleaving, for a batch that epoll_wait returns and any run up to the next wait of that worker: each connection reported with an error or hang-up is deregistered and closed as hung up, with no other call on it; each reported writable only gets exactly one send, of the rest of the payload, and is closed just when that finished or failed; on each with neither flag nobody makes a call |
| BatchEffects.MainLoopEnds | bsd-sockets/tcpserver/server.cpp:184-199 | the main loop is left only after a wait that failed and was not interrupted; an interrupted wait or accept is called again with nothing changed |
| BatchEffects.AcceptLoopEnds | bsd-sockets/tcpserver/server.cpp:206-241 | the accept loop is left exactly at an accept that failed and was not interrupted, or at a full table; a connection that cannot be set up does not end it |
| BatchEffects.AcceptedIsAdmitted | bsd-sockets/tcpserver/server.cpp:221-237 | after an accept the calls are set_nonblocking, then the registration, then the slot is at the end of the table with nothing sent; if either fails, a close and no slot; then the accept loop goes on |
| Delivery.ClientRunsItsLoop | bsd-sockets/tcpclient/client.cpp:62-83 | the file and result of a connection in the system are those of the receiving loop on what its recv calls return |
| Delivery.EndToEnd | bsd-sockets-v/tcpclient/client.cpp:129-172 | in every reachable state, for every segmentation of sends and receives, any retries and any end of the receive loop, a failed wait included, the output is a prefix of what was handed to the connection, itself a prefix of the payload; a successful client has all that was handed over, and the whole payload exactly if the connection was closed as finished (or the payload is empty) |
| Delivery.OffsetIsHandedOver | bsd-sockets/tcpserver/server.cpp:97-107 | the offset in a live slot is the number of payload bytes handed to that very connection, at most the payload size |
| Delivery.TruncatedSuccess | bsd-sockets/tcpserver/server.cpp:221-224 | a run in which the client reports success with an empty file: the only framing is the close |
| Progress.BoundedWork | bsd-sockets/tcpserver/server.cpp:205-261 | with N connections and a payload of L bytes no run has more than N(L+2) accepts, sends of bytes and removals |
| Progress.WorkIsPossible | bsd-sockets/tcpserver/server.cpp:184-262 | from anywhere in its main loop a worker with a queued connection or a live slot can do such a step, on calls of its own |
| Progress.Drain | bsd-sockets/tcpserver/server.cpp:205-261 | so a full table strands nobody: one worker alone can empty its table and the queue |
| Progress.EverybodyCanBeServed | bsd-sockets/tcpserver/server.cpp:184-262 | from every reachable wait, one worker can serve and close all waiting connections and all of its own, each not reset getting the whole payload |
| ServedStreams.ServerIsASender | bsd-sockets/tcpserver/server.cpp:97-118 | in every run and interleaving, what a connection was handed is what the abstract sender of all five servers puts on its wire for the send calls on that connection; complete exactly if that is the whole payload, stopped exactly if the connection is given up after a failed send |
| Receivers.WaitForReadable | bsd-sockets-v/tcpclient/client.cpp:104-127 | the poll loop ends as the first outcome that decides says |
| Receivers.ReceiveFile | bsd-sockets/tcpclient/client.cpp:62-83 | the blocking loop writes and returns what its specification says, on every trace |
| Receivers.ReceiveFileNonBlocking | bsd-sockets-v/tcpclient/client.cpp:138-171 | the same for the loop with its EINTR and EAGAIN branches |
| Receivers.ReceiveData | bsd-sockets-v/benchmarks/bench_tcp.cpp:134-172 | the counting loop over recv, blocking or waiting for data; success needs at least one byte |
| Receivers.AsioReceiveData | asio/benchmarks/bench_tcp.cpp:57-96 | the asio counting loop succeeds exactly if the first read without bytes ends the stream, resets it or is no error, and some byte came before |
| Receivers.CorosioReceiveData | capy-corosio/benchmarks/bench_tcp.cpp:70-129 | the corosio benchmark succeeds exactly if some byte came, whatever ended the loop |
| Receivers.RetriesLeaveNoMark | bsd-sockets-v/tcpclient/client.cpp:154-164 | deleting all retries from a trace changes neither file nor result, and the reduced trace makes the blocking client do the same |
| Receivers.CountingCounts | bsd-sockets/benchmarks/bench_tcp.cpp:57-81 | the benchmark counts the bytes a client would have written |
| Receivers.FirstDecides | bsd-sockets-v/tcpclient/client.cpp:104-127 | timed-out and interrupted polls, and those with neither flag, leave a wait open; the first other one decides it, and an error decides against data |
| Receivers.OutcomeDecides | bsd-sockets-v/tcpclient/client.cpp:138-171 | after data that the file took and any retries, the first other outcome decides the download: the end of the stream for success, a failed call, write or wait for failure; the file is the concatenation of the data before it |
| Receivers.BlockingDecides | bsd-sockets/tcpclient/client.cpp:62-83 | for the blocking client everything but data that the file took and the end of the stream is a failure |
| Receivers.CountDecides | bsd-sockets-v/benchmarks/bench_tcp.cpp:134-172 | the benchmarks add up all data before the outcome that decides; only the end of the stream after some byte is a success, and the blocking one fails where the other waits |
| Senders.WireIsPrefix | asio/tcpserver/server.cpp:82-99 | the abstract sender only ever puts a prefix of the payload on the wire |
| Senders.EndedSender | asio/tcpserver/server.cpp:82-99 | a sender that has ended is complete exactly when no send came to an error or to zero progress; complete means the whole payload; on a transport that reports progress for every nonempty offer it is complete |
| Senders.SameStream | capy-corosio/tcpserver/server.cpp:86-105 | any two senders put equal streams on the wire when no nonempty offer fails, however their transports cut it |
| Senders.OneOutcome | async-berkeley/tcpserver/server.cpp:114-145 | what each send does to the transport determines the stream and the result of an ended sender |
| Senders.EpollSend | bsd-sockets/tcpserver/server.cpp:97-118 | the epoll send steps, at most one per event, refine the abstract sender, and end complete exactly with the whole payload on the wire |
| Senders.AsioSend | asio/tcpserver/server.cpp:82-99 | the asio loop refines it; an exception ends it |
| Senders.CorosioSend | capy-corosio/tcpserver/server.cpp:86-105 | the corosio loop refines it; bytes reported with an error are sent but not counted |
| Senders.SendFile | async-berkeley/tcpserver/server.cpp:114-145 | the callback that restarts itself over the shared offset refines it and terminates; the offset is what was reported sent |
| Senders.ServeClient | async-berkeley/tcpserver/server.cpp:147-158 | the same from a new state |
| Senders.SendOverAll | asio/tcpserver/server.cpp:82-99 | the five loops on five transports of their own that report progress for every nonempty offer: asio, corosio, async-berkeley and TAPS put the whole payload on the wire, and so does epoll unless it waits for an event |
| Senders.WorkingExists | asio/tcpserver/server.cpp:86-89 | such transports exist for every payload |
| Senders.StopsAtFirstFailure | asio/tcpserver/server.cpp:82-99 | a sender is stopped exactly when the last send it made was a halt of its transport; all sends before it were not, and each was offered something |
| Senders.LastReplyDecides | capy-corosio/tcpserver/server.cpp:92-103 | in terms of the last reply of each transport: no bytes, or an error other than an interrupt or full buffer (epoll); a throw or no bytes (asio); an error, with bytes or without, or no bytes (corosio); an error or no bytes (async-berkeley); an error (TAPS) |
| Senders.ReadDefaultTcpSendBufferSize | taps-asio/tcpserver/server.cpp:91-107 | the chunk size is never 0, whatever the file holds |
| Senders.TapsSend | taps-asio/tcpserver/server.cpp:109-134 | the chunk loop terminates and refines it; its sends are an initial part of the chunks of the payload, all of them if no send fails |
| Senders.ChunksCutThePayload | taps-asio/tcpserver/server.cpp:116-131 | the chunks are not empty, all but the last are full, and together they are the payload |
| Senders.ChunkCount | taps-asio/tcpserver/server.cpp:116-131 | there are ceil(L / chunk) of them |
| EnergyCounter.DeltaIsDifferenceModRange | bsd-sockets/scripts/run_bench.py:178-185 | the delta of two readings of a counter that wraps is the energy used modulo the range |
| EnergyCounter.DeltaIsExactBelowOneRange | bsd-sockets/scripts/run_bench.py:178-185 | it is the energy used exactly if that is below one range |
| EnergyCounter.DeltaInJoules | bsd-sockets/scripts/run_bench.py:178-185 | a million times the joules between two readings are the microjoules used, modulo the range |
| EnergyCounter.DeltasAddUp | bsd-sockets/scripts/run_bench.py:178-185 | over a sampled sequence the deltas never exceed the total, and add up to it exactly if every gap is below the range |
| Statistics.PercentileIsMonotone | bsd-sockets/scripts/run_bench.py:714-729 | monotone in p over [0, 100], between the least and the greatest value, and equal to them at the ends |
| Statistics.PercentileFollowsData | bsd-sockets/scripts/run_bench.py:714-729 | monotone under a pointwise increase of the sorted data |
| Statistics.PercentileInterpolates | bsd-sockets/scripts/run_bench.py:714-729 | at the fractional index (n - 1) p / 100 the percentile is on the straight line through the two neighbouring values |
| Statistics.PercentilesAddUp | bsd-sockets/scripts/run_bench.py:714-729 | percentiles of two lists of one length add up when the lists do |
| Statistics.PercentileOfProgression | bsd-sockets/scripts/run_bench.py:714-729 | on a, a + b, a + 2b, ... every percentile is a + b (n - 1) p / 100 |
| Statistics.MedianIsP50 | bsd-sockets/scripts/run_bench.py:733-749 | the interpolated 50th percentile is the median, for odd and even lengths |
| Statistics.StatsAreOrdered | bsd-sockets/scripts/run_bench.py:733-749 | min <= p25 <= p50 <= p95 <= max, and p50 is the median |
| Statistics.MeanAndDeviation | bsd-sockets/scripts/run_bench.py:733-749 | the mean lies between min and max, and the deviation is 0 exactly when min is max |
| Statistics.StatsForgetOrder | bsd-sockets/scripts/run_bench.py:733-749 | the statistics do not depend on the order of the values |
| Statistics.StatsScale | bsd-sockets/scripts/run_bench.py:733-749 | scaling the values scales every statistic but the count, and the variance by the square |
| Statistics.StatsOfProgression | bsd-sockets/scripts/run_bench.py:733-749 | of a rising arithmetic progression in any order: the count, mean, median, p25, p50, p95, min and max as explicit numbers |
| Statistics.VarianceByPairs | bsd-sockets/scripts/run_bench.py:733-749 | 2 n (n - 1) times the sample variance is the sum of the squares of all differences of two values |
| Sorting.SortSorts | bsd-sockets/scripts/run_bench.py:766 | a sorted permutation, for any total preorder |
| Grouping.SortedByClasses | build_master_summary.py:194-201 | a sorted list is determined by the order of its elements within each class that the order does not tell apart |
| Grouping.SortIsStable | build_master_summary.py:194-201 | sorting keeps the order of elements that the order does not tell apart |
| Sorting.SortForgetsOrder | bsd-sockets/scripts/run_bench.py:766 | sorting forgets the order of its input when no two different elements tie |
| Orders.CaseOrder | bsd-sockets/scripts/run_bench.py:766 | tuples of case keys are totally ordered, and only equal keys tie |
| Orders.LibraryOrder | build_master_summary.py:63-66 | the order of libraries is total, and only equal names tie |
| Orders.CaseLeMeaning | bsd-sockets/scripts/run_bench.py:766 | cases are in order exactly if their compilers ascend, within a compiler the server threads, and within both the processes |
| Orders.LibraryLeMeaning | build_master_summary.py:63-66 | the names of the fixed list come in the order of the list and before all others, and the others in the order of their names |
| Orders.StringLeMeaning | build_master_summary.py:66 | a string comes before another exactly if the other extends it or has the greater character at the first difference |
| Grouping.GroupBy | bsd-sockets/scripts/run_bench.py:754-762 | the dictionary holds, for each key in the order of first appearance, the items of that key in their order |
| Campaign.SummarizeResults | bsd-sockets/scripts/run_bench.py:753-795 | the loops compute one summary per case, over the items of that case |
| Campaign.OneSummaryPerCase | bsd-sockets/scripts/run_bench.py:753-795 | entries are in strictly ascending order of cases, and the cases are those of the results |
| Campaign.SummaryAscends | bsd-sockets/scripts/run_bench.py:764-766 | of two entries the earlier has the lesser compiler, with one compiler the fewer server threads, with both the fewer processes |
| Campaign.SummaryReadsFields | bsd-sockets/scripts/run_bench.py:766-795 | which field of the runs each statistic of a summary is about; milliseconds that are missing are 1000 times the seconds |
| Campaign.RunsTimesMeanIsTotal | bsd-sockets/scripts/run_bench.py:753-795 | runs times mean, added up over the cases, is the total of the raw values, for every metric |
| Campaign.RunsAddUp | bsd-sockets/scripts/run_bench.py:753-795 | the runs add up to the number of results |
| Campaign.MeanOfMeans | bsd-sockets/scripts/run_bench.py:753-795 | with equally many runs per case the mean of the case means is the mean of all raw values |
| Campaign.SummaryForgetsOrder | bsd-sockets/scripts/run_bench.py:753-795 | the summary does not depend on the order of the results |
| Campaign.RunCampaignForCompilerAndThreads | bsd-sockets/scripts/run_bench.py:687-704 | the two inner loops produce each repetition of each case once, in order |
| Campaign.RunCompiler | bsd-sockets/scripts/run_bench.py:1463-1465 | the loop over server threads |
| Campaign.RunAll | bsd-sockets/scripts/run_bench.py:1462-1465 | the loop over compilers |
| Campaign.RunsPerCase | bsd-sockets/scripts/run_bench.py:687-704 | the results of each case of a campaign are exactly its repetitions 0, 1, ..., in order, and of no other case there are any |
| Campaign.CampaignIsComplete | bsd-sockets/scripts/run_bench.py:1462-1465 | the results are as many as compilers times server threads times cases times repetitions, and at each place is the run of the compiler, threads, case and repetition of that place in the nesting of the loops |
| Campaign.AllCasesAreAll | bsd-sockets/scripts/run_bench.py:1462-1465 | the cases of a campaign are exactly all combinations of its compilers, server threads and cases |
| Campaign.CampaignMeanOfMeans | bsd-sockets/scripts/run_bench.py:1462-1465 | hence a campaign of these loops meets the condition of MeanOfMeans |
| MasterSummary.SafeDiv | build_master_summary.py:95-98 | a quotient exactly when both values are there and the divisor is not 0 |
| MasterSummary.RowDict.FlattenStats | build_master_summary.py:85-92 | the row gains the nine fields of the prefix, null where there is no statistic, and keeps the rest |
| MasterSummary.RowDict.EnsureElapsedMsFields | build_master_summary.py:129-134 | each missing milliseconds field becomes 1000 times the seconds field if there is one; nothing else changes |
| MasterSummary.BuildRow | build_master_summary.py:152-190 | the row of one item |
| MasterSummary.RowAt | build_master_summary.py:172-175 | what a row holds for each metric and statistic |
| MasterSummary.RatiosOfItem | build_master_summary.py:177-190 | in terms of the statistics of the item: throughput per joule, of the means and of the medians, is there exactly if both values are and the energy is not 0, and times the energy it is the throughput; the same for downloads per second with the elapsed seconds |
| MasterSummary.FallbackIsSound | build_master_summary.py:129-134 | 1000 times the seconds statistics are the milliseconds statistics, for every key exactly except count, where it is always wrong |
| MasterSummary.OlderFilesFallBack | build_master_summary.py:129-134 | the row of a file without elapsed_ms differs from the row of one with it in the count field and nowhere else |
| MasterSummary.OlderRunsScale | bsd-sockets/scripts/run_bench.py:768 | the fallback for single runs yields the scaled values that FallbackIsSound is about |
| MasterSummary.BuildMasterRows | build_master_summary.py:137-203 | the rows of all files, sorted |
| MasterSummary.RowOrder | build_master_summary.py:194-201 | the row order is total, and only rows of one library and case tie |
| MasterSummary.MasterRowsAscend | build_master_summary.py:194-201 | of two rows the earlier has the earlier library, or the same library and the lesser compiler, server threads and processes, in this order |
| MasterSummary.CollectKeepsRows | build_master_summary.py:118-126 | the files are sorted by library and stay the same files; the rows do not depend on that sort, for any files |
| MasterSummary.RowsForgetFileOrder | build_master_summary.py:118-203 | for files of distinct cases the rows are the same for every order of the files, or for every order sorted by library, exactly if files of the same name agree on the cases they share |
| MasterSummary.ConflictMatters | build_master_summary.py:118-126 | two files of a list that disagree give two orders of that list, both sorted by library, with different rows |
| MasterSummary.DistinctLibrariesAgree | build_master_summary.py:109-115 | files of different names share no case |
| MasterSummary.EmptyFilesAddNothing | build_master_summary.py:152 | files without items, as a file without a list of them is read, may be left out |
| MasterSummary.CampaignRowsForgetFileOrder | build_master_summary.py:118-203 | the condition for files of campaigns and files without items; it holds when the files with items have different names |
| MasterSummary.CampaignFilesHaveDistinctCases | bsd-sockets/scripts/run_bench.py:753-795 | files written by a campaign have distinct cases |
| Winners.FirstIsBest | build_master_summary.py:218-233 | the chosen item is beaten by none, and beats every earlier one |
| Winners.BuildBestByCase | build_master_summary.py:206-255 | the loops compute one record per case |
| Winners.WinnersAreRight | build_master_summary.py:206-255 | on the rows of all files: exactly one record per case, in order; for each of the four figures the winner is optimal, and ties go to the library earliest in the fixed order |
| Winners.WinnersAreExtreme | build_master_summary.py:218-255 | by value: no row of the case with a value has a shorter time, less energy, a greater throughput or a greater throughput per joule than the one chosen, which is that of a row of the library named |
| Winners.FiguresOfItem | build_master_summary.py:218-233 | what is compared, from the statistics of the item: the mean of the milliseconds or 1000 times that of the seconds, of the energy, of the throughput, and the quotient of the last two |
| Winners.BestCaseIsUnique | build_master_summary.py:206-255 | these properties determine the record |
| Winners.MissingValuesLose | build_master_summary.py:218-233 | a library without a value wins only if none has one |
| Winners.BuildLibraryOverview | build_master_summary.py:258-289 | the loops compute one entry per library |
| Winners.OneEntryPerLibrary | build_master_summary.py:266 | one entry per library, in the fixed order |
| Winners.EntriesAreRight | build_master_summary.py:258-289 | each entry counts the rows of its library; each best value is that of one of them and the least time and energy, or the greatest throughput and throughput per joule, of those that have one; each average times their number is their sum |
| Winners.OverviewForgetsOrder | build_master_summary.py:258-289 | the overview depends only on which rows there are, even for repeated names |
| Winners.OverviewAveragesAllRuns | build_master_summary.py:258-289 | with equally many runs per case the three averages of a library are the means of all of its raw measurements, for files with and without elapsed_ms |
| Winners.WinnersForgetFileOrder | build_master_summary.py:206-289 | winners and overview never depend on the order in which the files are read, not even when the rows do |
| Accounting.ParseBenchmarkJson | bsd-sockets/scripts/run_bench.py:563-583 | valid exactly for a readable report without errors and with at least one timed iteration |
| Accounting.ParseBenchmarkJsonAsync | async-berkeley/scripts/run_bench.py:527-553 | the variant that counts entries without a run type, and bytes |
| Accounting.AccountReports | bsd-sockets/scripts/run_bench.py:628-643 | the accounting loop |
| Accounting.AccountReportsAsync | async-berkeley/scripts/run_bench.py:598-615 | the accounting loop of the variant |
| Accounting.EveryProcessIsCounted | bsd-sockets/scripts/run_bench.py:633-643 | success + failed is the number of processes launched, in both variants |
| Accounting.AccountsAddUp | bsd-sockets/scripts/run_bench.py:633-643 | the accounts of two lists of reports add up, in both variants |
| Accounting.TotalsAddUp | bsd-sockets/scripts/run_bench.py:570-575 | iterations and bytes of two lists of entries add up |
| Accounting.OneEntryCounts | async-berkeley/scripts/run_bench.py:536-545 | what one entry counts: its iterations if it is of the type iteration, or in the variant of no type, and there its bytes rounded toward zero |
| Accounting.VariantsDiffer | async-berkeley/scripts/run_bench.py:540-548 | where entries have run types, the variant accepts what the others accept, and beyond that exactly the reports without errors that count bytes but no iteration |
| Accounting.BytesAloneAreSuccess | async-berkeley/scripts/run_bench.py:547-548 | there are such reports, with any number of bytes |
| Accounting.RunMacroBenchCase | bsd-sockets/scripts/run_bench.py:619-671 | success + failed is the number of processes; net energy is never negative and makes up the raw energy with the idle share, or is 0 when that is all of it; throughput times time are the bytes, iterations times file size; downloads times successes are the iterations, at least one each |
| Accounting.RunMacroBenchCaseAsync | async-berkeley/scripts/run_bench.py:589-645 | the same in the variant, whose bytes are the reported ones if there are any |
| Accounting.CountedBytes | async-berkeley/scripts/run_bench.py:617-619 | for processes of any library: iterations times file size is at least what the successful processes received, equal to it exactly if each received the whole file, and equal to what the variant reports exactly then |
| Accounting.ServedProcessesArePlausible | bsd-sockets-v/benchmarks/bench_tcp.cpp:134-172 | what CountedBytes supposes of a receiver over recv holds in every run of the epoll server; a successful one is complete exactly if its connection was closed as finished |
| Accounting.SentProcessesArePlausible | asio/benchmarks/bench_tcp.cpp:57-96 | the same of the asio and corosio receivers on what any of the senders has put on its wire; a read loop that ends in a reset is a success of both exactly if it brought a byte |
| Accounting.EndOfFileDecides | asio/benchmarks/bench_tcp.cpp:80-95 | an asio or corosio download that ends with the end of the file is complete exactly if the whole payload was on the wire, and, unless a failing send left bytes there, exactly if the sender completed; both benchmarks succeed on it exactly if there was anything on the wire |
| Accounting.AsioTransfer | asio/tcpserver/server.cpp:82-99 | the asio server and benchmark over any connection: after the end of the file, complete exactly if the sender completed, and a success exactly if anything was sent |
| Accounting.CorosioTransfer | capy-corosio/tcpserver/server.cpp:86-105 | the corosio server and benchmark over any connection: after the end of the file, complete exactly if the whole payload was on the wire |
| Accounting.ResetIsSuccess | capy-corosio/benchmarks/bench_tcp.cpp:88-94 | after any nonempty part of any wire, a reset makes both benchmarks succeed |
| Accounting.ReadsAddUp | asio/benchmarks/bench_tcp.cpp:57-96 | the reads that bring bytes add up, whatever error comes with them, until one brings none; its error decides the asio benchmark, where any but the end of the file and a reset fails, and does not matter to that of corosio |
| Accounting.TapsReceiveData | taps-asio/benchmarks/bench_tcp.cpp:56-92 | counts the bytes up to the first error or empty message |
| Accounting.MessagesAddUp | taps-asio/benchmarks/bench_tcp.cpp:70-91 | nonempty messages are all added up, to the concatenation of them, until an error or an empty message, and nothing after that counts |
| Accounting.TapsDownload | taps-asio/benchmarks/bench_tcp.cpp:120-138 | succeeds exactly on the expected number of bytes |
| Accounting.TapsSuccessIsComplete | taps-asio/benchmarks/bench_tcp.cpp:124-134 | sender and benchmark together: for a file of the expected size the benchmark succeeds exactly if the whole payload was sent and received, and never on a sender that stopped short or is under way; a smaller file never succeeds, a larger one only truncated |
| Accounting.TapsTransfer | taps-asio/tcpserver/server.cpp:91-134 | the same of the two loops run one after the other over any network that delivers a prefix |
| Accounting.TapsRelay | taps-asio/tcpserver/server.cpp:109-134 | with a network that hands over the very messages of the sender, whatever follows: for a file of the expected size the benchmark succeeds exactly if the sender sent all its chunks, and always if no send fails |
| Accounting.TapsCountIsExact | taps-asio/benchmarks/bench_tcp.cpp:131-134 | so the bytes counted for TAPS are exact when the file has that size, for any processes of this benchmark |

## Left out

- Library runtimes: the executors, coroutines, triggers and connections of asio, corosio, async-berkeley and TAPS are not part of this model; their sends and receives are abstract outcomes.
- Setup: sockets, `bind` and `listen` with its backlog, addresses, the mapping of the file, arguments and port checks, thread creation and the unmapping after the join.
- `set_nonblocking` is one call with one result, although it makes two; the thread that calls and what it does before its next call are one step.
- The size of the event array: batches may have any length here, which covers the 256 of the server.
- The receive buffer of the clients and benchmarks is at most 65536 bytes here, which covers the smaller ones.
- Kernel fairness: what can always be done is proved, not that the kernel reports a given client in time.
- Machine integers: byte counts and offsets are unbounded here; they stay at most the payload size, but sums of them in the scripts and benchmarks have no bound to wrap at.
- Process control of the scripts: starting and stopping servers, ports, waits, caches, interrupts and exceptions other than the one for an unreadable report.
- Plots, tables, PDF and CSV files, text formatting, JSON syntax, and fields of the rows that are only copied (file, host, port, repetitions, display names).
- The walk over the input directory: the files that it finds are given, in any order.
- Null case keys: case keys are never null here; with a mixture of null and other keys the scripts fail when they sort.
- Infinite and undefined floating-point values, rounding, and the error of sums in floating point.
- The receive loops of the asio, corosio and async-berkeley clients and of the async-berkeley benchmark: `Accounting` takes what such a benchmark received, and whether it succeeded, as given.
- Benchmark internals: how often an iteration is timed and how a report is written.
- Shell and CMake files, and `merge.py`.

Nothing was executed: all of this comes from reading the sources.
