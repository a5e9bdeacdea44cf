# trace-mcp: a verified model

trace-mcp records Intel PT branch traces, rebuilds per-thread call spans from
them, and serves the result through a small job coordinator. This project models
the parts of it that carry the most state, branching and arithmetic, and proves
what they promise over every input, every record stream and every run.

**The call reconstructor.** `Machine` gives each stack operation as a function
on a state of thread rows, open frames, spans, events and gaps; `Symbols` gives
address resolution with its interning tables and its cache; `Recon` puts them
together into what a record stream and `finish` do. `Reconstructor.dfy` is the
same thing in the form of the source, a class whose fields are updated in place
record by record, and each of its methods is proved to move the class exactly as
the functions say. The invariants live in `SpanIds`, `Laminar`, `Evidence`,
`Origin` and `Tally`, are carried through every step in `Steps` and `Runs`, and
become statements about the returned analysis in `Results`, `Owners`, `References`,
`ZeroTimes`, `ThreadRows`, `SelfTime` and `EndToEnd`. `RoundTrip` prints a forest
of calls as samples and gets the same forest back; `Jumps` shows that jumps inside
functions leave no trace in it; `Interleaving` and `NonInterference` do the same
for the samples of many threads in any order. `Behaviour` says when frames open
and close, `Tracking` which records of which tasks are kept. The rest ties a
returned analysis to the records it came from: `Rings` how far back each
processor's ring reaches, `Places` what its functions and locations are,
`Unarchived` which images are missing, `Events` its events and which samples left
one, `Gaps` and `Breaks` between them every gap, `Labels` what the label of a span
promises of its two events.

**The coordinator.** `Coordinator` is a state with the capture, decode and
compare tasks in flight beside it; `Protocol` proves its accounting and the life
of every session over all interleavings of requests and reports; `JobTable` says
which jobs can be looked up and what becomes of cancelled ones, and `Promises`
follows over whole runs what a session has been promised and its recorder told.
`Outcomes` ties the job table to the tasks and sessions, `Repeats` says how a
repeated request is answered, and `Admission` which requests are accepted.
`CoordinatorService` is the class: its handlers update tables and counters in
place, and each keeps the protocol's invariant and says what it did to them.

**Streams and numbers.** `Merge` is the k-way merge of batched record streams,
`Lines` the chunked line reader over a growing buffer. `Bits` holds words as sums
of bits, `Scan` says naively what the numbers, the time and the head of a sample
line are, `Heads` which texts have a head and which, and `Cursors` is the
branchless scanner that computes all this from words, masks and table entries.

**perf.data as bytes.** `PerfFile` is the reader, `Refusals` which files it does
not read, `KernelRecords` the records that the kernel writes for any sample type
and the proof that they are read back. `Bundle`, `Recording` and `Recovery` are the
writer of the recorder's own bundles and the proof that the reader recovers them,
`Names` for which names it does. `Splitting`, `Selection` and `SplitMeaning` are the
splitter by processor and the proof that it preserves what the file says,
`BundleSplit` the two together. `Tsc` is the clock conversion.

**Cutting and paging.** `Psb` cuts trace buffers at stream boundaries; `Page` and
`Fitting` shrink result pages to a budget and follow their cursors; `Halving` says
what one shortening keeps; `PageLengths` takes the budget in bytes of JSON text.

Some of what the source or its comments say turned out to hold only under a
condition. The code is modelled as it is, and the condition is proved:

- `finish` refuses a run with a time in it if and only if some record writes the
  time 0 into an event, span or gap, because the earliest time ignores 0
  (`RefusedIff`; `ZeroErrorIsRefused` is such a run).
- A thread id carries the tid and how often it was reused, not the process: two
  rows share an id exactly if they have one tid, different processes and equally
  many earlier tasks (`ThreadIdsSharedIff`, `ThreadIdsCanCollide`).
- "At most `parts` chunks" fails for very long buffers cut into very many parts;
  `AtMostPartsIff` says for which lengths.
- Following the cursors delivers all rows if and only if no page on the way has
  all beginnings of its rows and all shortened forms of its first row over budget
  (`CollectsAllIff`, `OmittedIff`). Such a page names itself as the next page
  (`BlockedPageRepeats`), as does every page of one field that is an array of one
  string longer than the budget (`LongRowRepeats`, `DefaultBudgetRepeats`). If the
  notice in its place is over budget too, the second fitting in the tool wrapper
  sends the client back to row 0; else it changes nothing (`RefitKeepsOrResets`).
- The clock conversion is exact up to wrapping if and only if one product fits 64
  bits (`TscToNsExactIff`, `LargeShiftFails`).
- A record's size is written in sixteen bits: a bundle is recovered if and only if
  no process name is longer than 65479 bytes and no path longer than 65423
  (`BundleRoundTripIff`). A longer name stops the reading, makes the reader panic
  or comes back cut off (`NamedItemReadIff`).
- The scanner's safety note says that the cursor never leaves the line, whatever
  is behind it. It leaves the line if and only if the byte behind it is the
  punctuation that the line still wants (`ParseHead`, `Wanted`), as for a line
  `12` before a slash (`SlashBehindIsTaken`); a blank, a newline or NUL never is
  (`TerminatedStays`), and `TrimEnd` and `Sink.Consume` establish that for the
  lines that the reader hands out.
- `skip_ws` is described as skipping spaces and tabs; a tab stops it.
- Function ids can differ between a run with plain jumps and one without, since a
  jump may intern a function earlier (`FunctionIdsDiffer`); the functions
  themselves are the same (`JumpsAreInvisible`).
- The job named by a successful snapshot reply is in the job table unless the
  armed session's snapshot could not be stored and its capture has neither ended
  nor been cancelled since (`RepliedJobKnownIff`, `MissingIff`,
  `StoreErrorLosesJob`). Such a session is finalizing, but its recorder was never
  told to finish (`ToldIff`).
- A cancelled job does not stay cancelled if its task reports later
  (`CancelledStaysIff`, `CancelledJobRevives`); after the report its record is final,
  but a failure still turns into a cancellation if it is cancelled then
  (`ReportIsFinal`).
- A decode that failed is not tried again: as long as no stored analysis answers
  it, the same request is answered with the failed job (`DecodeIsIdempotent`,
  `FailedStaysCached`).
- `max_decode_jobs` bounds only the decodes that are asked for. A published capture
  starts its decode without looking at it, so that any number of decodes can run at
  once (`DecodesAreUnlimited`, `DecodeAcceptedIff`).
- An address is looked up in the last symbol that starts at or below it. Behind a
  symbol nested in another the outer one is not found (`NestedHidesOuter`); where
  symbols do not overlap, the containing one always is (`ContainingIsFound`).
- A number has at most sixteen digits, and a thread of sixteen digits needs no blank
  behind it: a longer run of digits is read as a thread and a time (`HeadIff`).

## Model

| member | source | states |
|---|---|---|
| `Symbols.ResolveOk` | src/decode/reconstruct.rs:725-829 | resolving keeps the tables dense and injective and the cache right, moves no id that was handed out, and returns what the tables then say |
| `Symbols.ResolveUncachedOk` | src/decode/reconstruct.rs:740-829 | a lookup that misses the cache interns without disturbing any earlier id, and its answer can be read off the tables |
| `Symbols.CacheAgreement` | src/decode/reconstruct.rs:725-738 | a cache hit is what an uncached lookup would return now, and that lookup would change no table |
| `Symbols.AddMappingOk` | src/decode/reconstruct.rs:452-475 | after a new mapping the tables are still dense and every cached answer is still right |
| `Symbols.PlaceMovesIff` | src/decode/reconstruct.rs:452-475 | it changes what an address resolves to exactly for the covered addresses of its own process |
| `Symbols.NewMappingWins` | src/decode/reconstruct.rs:452-475 | right after a mapping appears, its addresses resolve through it |
| `Symbols.SameLocationSamePlace` | src/decode/reconstruct.rs:740-829 | while image keys cannot collide, one location id means one image and one address |
| `Places.PlaceIsDescribed` | src/decode/images.rs:118-126 | a place lies in a mapping of its process that covers the address, of the first image archived under its path; its relative address is the file offset moved by the first segment that holds it, or the offset itself, and its function is the last symbol starting at or below it, if that contains it |
| `Places.EventDescribes` | src/decode/reconstruct.rs:452-475 | right after a mapping event its addresses are described by that event's start, file offset and path |
| `Places.ContainingIsFound` | src/decode/images.rs:172-179 | with sorted disjoint symbols an address is given the one that contains it, and none exactly if none does |
| `Places.NestedHidesOuter` | src/decode/images.rs:172-179 | an address in a symbol, behind another nested in it, is given none |
| `Places.RowsAreTrue` | src/decode/reconstruct.rs:740-829 | for every record stream, each function of a returned analysis is a symbol of an archived image, and each location is where a mapping record of the stream put its address, in the function around it |
| `Unarchived.ReportedIff` | src/decode/reconstruct.rs:776-782 | for every stream and filter: a path is reported as missing exactly if it names a file without an archived image and a kept sample goes to or comes from it, and then once, whatever the cache answers |
| `SpanIds.PushedKeepsIds` | src/decode/reconstruct.rs:1220-1241 | opening a frame keeps every allocated id either on exactly one stack or emitted once, and each parent the frame below |
| `SpanIds.PoppedKeepsIds` | src/decode/reconstruct.rs:1243-1271 | closing a frame moves its id from the stack to the emitted spans and nothing else |
| `SpanIds.AllocatedKeepsIds` | src/decode/reconstruct.rs:1163-1188 | an unmatched return takes the next id and is emitted at once |
| `Laminar.PushedKeepsLaminar` | src/decode/reconstruct.rs:1132-1134 | a called frame starts no earlier than what is already closed beside it |
| `Laminar.PoppedKeepsLaminar` | src/decode/reconstruct.rs:1243-1271 | a Complete span contains its Complete children, and is disjoint from its Complete siblings |
| `Evidence.PoppedKeepsEvidence` | src/decode/reconstruct.rs:1243-1271 | the first and last event of a span are retained events of it in order |
| `Evidence.EventKeepsEvidence` | src/decode/reconstruct.rs:916-950 | storing the next event keeps all evidence backed |
| `Evidence.PoppedKeepsLineage` | src/decode/reconstruct.rs:1243-1271 | a span's parent is open or emitted on the same thread |
| `Steps.TailCallIsPopPush` | src/decode/reconstruct.rs:1192-1205 | overwriting the parent after a tail call changes nothing: it already is the frame below |
| `Steps.SettleKeepsInv` | src/decode/reconstruct.rs:979-1082 | settling a trace end, in each of its four outcomes, keeps all invariants |
| `Steps.FlowKeepsInv` | src/decode/reconstruct.rs:968-1218 | applying any sample keeps identities, nesting, evidence, origin and counters |
| `Steps.InterruptKeepsInv` | src/decode/reconstruct.rs:1308-1331 | unwinding a thread at a discontinuity keeps all invariants |
| `Behaviour.SampleIsLocal` | src/decode/reconstruct.rs:968-1218 | a sample changes no other thread's row, and every span and gap it adds names its own thread |
| `Behaviour.TraceEndClosesIff` | src/decode/reconstruct.rs:979-1082 | a pending trace end costs no open frame exactly when the trace resumes in the function it left, on a ring that reaches back |
| `Behaviour.FramesCloseIff` | src/decode/reconstruct.rs:1084-1217 | otherwise frames close exactly at returns, tail calls and asynchronous transfers |
| `Behaviour.FramesOpenIff` | src/decode/reconstruct.rs:1084-1217 | and span ids are given out exactly at calls, tail calls, unmatched returns and where a trace starts with nothing open |
| `Behaviour.TraceStartOpens` | src/decode/reconstruct.rs:1026-1128 | a trace that starts with nothing open leaves one frame of unknown start, since the trace end if it resumes where it left, else since now |
| `Behaviour.AsyncIsNotACall` | src/decode/reconstruct.rs:1104-1121 | an asynchronous transfer opens nothing, ends every frame at an unknown time, and leaves one gap |
| `Behaviour.EndThenResume` | src/decode/reconstruct.rs:1026-1051 | a trace end and a start in the same function leave stack and spans alone, with one boundary gap from end to start |
| `Rings.FirstSeenIff` | src/decode/reconstruct.rs:419-427 | for every stream and filter: what is kept for a processor is the time of its first timed sample, kept or foreign |
| `Rings.ResumeAfterEnd` | src/decode/reconstruct.rs:979-1082 | a thread with open frames leaves the trace and resumes after records of other tasks: by the records alone, it keeps its frames exactly if it resumes where it left and the ring it resumes on had begun by then; else all end at an unknown time, with the gap that says why |
| `Behaviour.StubIsNamed` | src/decode/reconstruct.rs:1206-1212 | a call into an unnamed stub that jumps into a function ends as one Complete span of that function, from the call to the return |
| `Behaviour.ReturnsPastTheStart` | src/decode/reconstruct.rs:1162-1188 | two returns with nothing open are a span of unknown start and a span of its caller certain at neither end |
| `Behaviour.TailCallsChain` | src/decode/reconstruct.rs:1192-1205 | a chain of tail calls keeps one frame in place of the first: each closes the one before where it starts, all under one parent |
| `Behaviour.ReturnEndsChain` | src/decode/reconstruct.rs:1135-1205 | one return answers the whole chain and uncovers the caller |
| `Behaviour.ExitClosesAll` | src/decode/reconstruct.rs:1273-1306 | at an exit the frames close at that time, top first, and the row is retired with them counted |
| `Runs.PushSampleKeepsInv` | src/decode/reconstruct.rs:831-966 | every sample keeps the whole invariant, including time regressions |
| `Runs.PushKeepsInv` | src/decode/reconstruct.rs:419-536 | every record, kept or filtered out, keeps the whole invariant |
| `Runs.AnyRun` | src/decode/reconstruct.rs:419-536 | the invariant holds after every record stream |
| `Tracking.LiveStaysLive` | src/decode/perf_script.rs:345-400 | no record takes a live thread away |
| `Tracking.LiveIff` | src/decode/perf_script.rs:345-391 | after any records a process is live exactly if it was at first, took on the awaited name while tracked, or was forked by a live process |
| `Tracking.HeldBackIff` | src/decode/perf_script.rs:345-384 | a thread is held back exactly if its process started it before the awaited exec and it has not exited since |
| `Tracking.KeptIff` | src/decode/perf_script.rs:345-397 | after any stream a sample is kept exactly if its process became live and its thread is not held back |
| `Tracking.RecordKeptIff` | src/decode/reconstruct.rs:428-451 | the same for every kind of record: decoder errors as samples if they name a process, task records of tracked processes, and mappings no older than the awaited exec |
| `Tracking.KeptStaysKept` | src/decode/reconstruct.rs:419-451 | once a sample of a thread was kept, no later sample of it is dropped, whatever comes in between |
| `Results.FinishIsSound` | src/decode/reconstruct.rs:1333-1450 | for every record stream, a returned analysis has span ids equal to indices, parents before children on one thread, backed evidence, nested Complete spans, and per-thread counters that sum to the totals |
| `References.FinishNamesWhatItHolds` | src/decode/reconstruct.rs:1333-1450 | for every record stream, each function, location, event and thread that a returned analysis names, in its location rows too, is one of its rows; a gap may name no thread |
| `Events.EventsAreTrue` | src/decode/reconstruct.rs:916-950 | for every stream and filter: each event of a returned analysis is one kept sample, with its number among the samples of its task, its time, kind and boundary, and its addresses where the mapping records put them; ids ascend, and no sample that must be stored is missing |
| `Events.StoredIff` | src/decode/reconstruct.rs:916-950 | a kept sample leaves no event exactly if it is a plain jump inside one body of code |
| `Events.FlagsMean` | src/decode/perf_script.rs:1016-1056 | how kinds and boundaries of samples go together |
| `Gaps.GapsAreTrue` | src/decode/reconstruct.rs:494-531 | for every stream and filter: lost records, decoder errors and backward clocks appear in a returned analysis exactly as the kept records announce them, in order, with times and threads |
| `Breaks.BreaksAreTrue` | src/decode/reconstruct.rs:979-1121 | and all its other gaps are exactly those that the trace ends and asynchronous transfers of the kept samples leave, in order, with kinds, times and threads |
| `Labels.LabelsAreTrue` | src/decode/reconstruct.rs:1084-1450 | for every stream and filter, the label of each span is true: Complete from a call to a return, OpenEnd from a call on, OpenBoth never from a call, an interrupted one with no known end |
| `Results.FinishFailsIff` | src/decode/reconstruct.rs:1333-1416 | `finish` fails for a time before the origin exactly when a stored time is 0 |
| `ZeroTimes.RefusedIff` | src/decode/reconstruct.rs:1333-1416 | for every record stream: no timestamps exactly if no kept record has a nonzero time, and a time before the origin exactly if one has and some record writes the time 0 |
| `ZeroTimes.ZeroErrorIsRefused` | src/decode/reconstruct.rs:509-531 | a decoder error at time 0 and a later switch: refused |
| `Results.MinIsEarliest` | src/decode/reconstruct.rs:411-417 | the minimum kept by the run is a function of the filter and the records alone, even if it comes late |
| `Results.EarliestIff` | src/decode/reconstruct.rs:411-417 | that function is the least nonzero time that a kept record carries, and nothing exactly if none carries one |
| `Results.FinishSucceedsIff` | src/decode/reconstruct.rs:1333-1416 | without zero times, `finish` succeeds exactly when some kept record has a time; rebasing never fails, ring holes included |
| `Results.SortSorts` | src/decode/reconstruct.rs:1420-1420 | the final sort orders the spans by id and keeps exactly them |
| `ThreadRows.ThreadIdsSharedIff` | src/decode/reconstruct.rs:1636-1673 | two rows of a returned analysis share an id exactly if they have one tid, different processes and equally many earlier rows of their tasks |
| `ThreadRows.ThreadIdsCanCollide` | src/decode/reconstruct.rs:1667-1672 | two processes with one tid: `finish` returns two rows with one id |
| `RoundTrip.PushCall` | src/decode/reconstruct.rs:1132-1134 | a call sample opens one frame with the target's function, the frame below as parent, and its own time and event |
| `RoundTrip.PushReturn` | src/decode/reconstruct.rs:1135-1143 | a return closes the top frame as Complete with the frame's own data and the return's time and event |
| `RoundTrip.ForestRoundTrip` | src/decode/reconstruct.rs:831-1268 | printing any forest of calls as samples with times that never decrease, and pushing them, yields exactly that forest |
| `EndToEnd.AnalysisRoundTrip` | src/decode/reconstruct.rs:831-1450 | through `finish`, on one thread: the analysis holds one Complete span per call, with function, parent, times and preorder id; it fails exactly if no time is known or a time 0 is written |
| `Jumps.JumpsAreInvisible` | src/decode/reconstruct.rs:916-950 | pushing a forest with its jumps and without gives the same stacks, gaps and spans but for event ids, function ids naming the same functions |
| `Jumps.JumpsInvisibleInAnalysis` | src/decode/reconstruct.rs:831-1450 | the same of the two analyses that `finish` returns, whatever came before |
| `Jumps.JumpsKeepSuccess` | src/decode/reconstruct.rs:1333-1416 | without zero times, adding jumps never makes `finish` fail |
| `Jumps.FunctionIdsDiffer` | src/decode/reconstruct.rs:740-829 | a jump that interns its function first changes the id of the function called next |
| `Interleaving.PairsAreMatches` | src/decode/reconstruct.rs:1131-1161 | a return is paired with exactly the call whose level its thread comes back to, for the first time since |
| `Interleaving.RunRendered` | src/decode/reconstruct.rs:831-1268 | pushing any interleaving of the calls, returns and jumps of many threads leaves one frame per open call and emits one Complete span per pair, with the enclosing call as parent |
| `NonInterference.ThreadsDoNotInterfere` | src/decode/reconstruct.rs:831-1268 | what the run holds of a thread is what its samples alone would give: same functions, times, sites and parents, ids and events renumbered |
| `NonInterference.TwinsKeepOrder` | src/decode/reconstruct.rs:1220-1241 | that renumbering keeps the order of the calls |
| `NonInterference.InterleavedForests` | src/decode/reconstruct.rs:831-1268 | any interleaving of printed forests rebuilds every one of them, with no gap and all stacks as before |
| `NonInterference.AnalysisOfInterleaving` | src/decode/reconstruct.rs:831-1450 | through `finish`, whatever came before with nothing left open: every matched pair is the row at its id; it fails exactly if no time is known or a time 0 is written |
| `EndToEnd.AnalysisConservesSelfTime` | src/analysis/hotpaths.rs:107-131 | in every analysis, the self times of a wholly Complete timed subtree sum to its root's inclusive time |
| `SelfTime.SelfElapsed` | src/analysis/timeline.rs:113-141 | the sweep returns the number of instants of the parent that no child covers |
| `SelfTime.Sweep` | src/analysis/timeline.rs:130-141 | one running end suffices to measure the union of sorted intervals |
| `SelfTime.ClampChildren` | src/analysis/timeline.rs:122-129 | cutting the children down to the parent covers the same instants inside it |
| `SelfTime.SelfTimeConserved` | src/analysis/hotpaths.rs:107-131 | self times over a nested tree sum to the root's length |
| `SelfTime.LaidUncovered` | src/analysis/timeline.rs:113-141 | disjoint children inside the parent leave its length less theirs |
| `SelfTime.ChildIndex` | src/analysis/hotpaths.rs:332-340 | the index lists the children of every span in id order |
| `SelfTime.KnownIntervals` | src/analysis/hotpaths.rs:110-127 | the children's intervals are known exactly if all are Complete with both times |
| `SelfTime.SelfOfRow` | src/analysis/hotpaths.rs:107-131 | the aggregation's self time of a row is unknown if a child is, else the instants that no child covers |
| `SelfTime.RowSelfIs` | src/analysis/hotpaths.rs:107-131 | for rows of an analysis it is known exactly if the row and its children are timed, and then it is the row's length less theirs |
| `Reconstruction.InterruptIsEmptied` | src/decode/reconstruct.rs:1308-1331 | taking the stack away and emitting it in reverse is popping frame by frame |
| `Reconstruction.CloseOpenIsEmptied` | src/decode/reconstruct.rs:1273-1306 | the same for frames closed at thread exit |
| `Reconstruction.Reconstructor.FindMapping` | src/decode/reconstruct.rs:740-752 | the newest mapping of the process that covers the address |
| `Reconstruction.Reconstructor.ResolveSlow` | src/decode/reconstruct.rs:740-829 | the lookup updates the tables as specified |
| `Reconstruction.Reconstructor.ResolveAddr` | src/decode/reconstruct.rs:725-738 | the cached lookup updates the tables and the cache as specified |
| `Reconstruction.Reconstructor.InterruptThread` | src/decode/reconstruct.rs:1308-1331 | every open frame is emitted as interrupted, top first |
| `Reconstruction.Reconstructor.RetireThread` | src/decode/reconstruct.rs:1273-1306 | the frames close at the exit and the row is retired |
| `Reconstruction.Reconstructor.SettleTraceEnd` | src/decode/reconstruct.rs:979-1082 | the pending trace end is settled as specified |
| `Reconstruction.Reconstructor.ApplySampleFlow` | src/decode/reconstruct.rs:968-1218 | a sample moves the stacks as specified |
| `Reconstruction.Reconstructor.PushSampleRecord` | src/decode/reconstruct.rs:831-966 | a sample record moves stacks, tables and earliest time as specified |
| `Reconstruction.Reconstructor.PushTaskRecord` | src/decode/reconstruct.rs:476-493 | an exit retires the thread and starts a new generation |
| `Reconstruction.Reconstructor.PushErrorRecord` | src/decode/reconstruct.rs:509-531 | a decoder error interrupts its own thread, or leaves an unattributed gap |
| `Reconstruction.Reconstructor.Push` | src/decode/reconstruct.rs:419-536 | every record moves the whole reconstructor as specified and keeps it valid |
| `Reconstruction.Reconstructor.Finish` | src/decode/reconstruct.rs:1333-1450 | the result is the specified analysis or the specified failure |
| `Protocol.StepKeeps` | src/service.rs:314-381 | every request and report keeps the coordinator's invariant |
| `Protocol.CountersAreExact` | src/service.rs:425-474 | over every run, the counters equal the held slots and the tasks in flight, and captures stay within their limit |
| `Protocol.NothingSaturates` | src/service.rs:2494-2501 | no saturating subtraction ever saturates, even when cancel races with publish or failure |
| `Protocol.PublishedKeeps` | src/service.rs:546-627 | publishing hands the slot back and turns the reservation into a running decode |
| `Protocol.FailedKeeps` | src/service.rs:532-545 | a failed capture gives back its slot and reservation and leaves no job queued |
| `Protocol.CancelSessionKeeps` | src/service.rs:923-950 | cancelling a session keeps the accounting |
| `Protocol.SnapshotKeeps` | src/service.rs:809-871 | a snapshot request keeps the accounting |
| `Protocol.StepIsLater` | src/service.rs:519-642 | final phases are absorbing, and snapshot and job ids once given stay |
| `Protocol.RepliesAgree` | src/service.rs:809-871 | all successful snapshot and stop replies of one session name one snapshot and one job |
| `Protocol.StartIsIdempotent` | src/service.rs:412-424 | a repeated start request is answered with the session it created |
| `JobTable.CapturedJobsAreKnown` | src/service.rs:546-627 | over every run, the job of a captured session is in the job table |
| `JobTable.GoesMissingIff` | src/service.rs:809-871 | a promised job goes missing exactly at an armed session's snapshot request that cannot be stored |
| `Promises.MissingIff` | src/service.rs:809-871 | over every run, the job promised by a finalizing session is not in the table exactly if its snapshot request could not be stored and no publication, failure or cancellation of it followed |
| `Promises.RepliedJobKnownIff` | src/service.rs:809-874 | after every run, the job named by a successful reply is in the table exactly unless that has happened |
| `Promises.ToldIff` | src/service.rs:839-949 | over every run, a recorder was told to abort exactly if its session is cancelled, and to finish exactly if it is not and its snapshot was stored; a finalizing one was told nothing exactly if storing failed |
| `JobTable.StoreErrorLosesJob` | src/service.rs:809-871 | a run in which the second reply names a job that is not there, of a capture that was not told to finish |
| `JobTable.CancelledStaysIff` | src/service.rs:519-642 | an event leaves a cancelled job cancelled exactly if it is not its task's report and does not publish or take its session's snapshot |
| `JobTable.CancelledJobRevives` | src/service.rs:628-640 | a decode that is cancelled and then reports success is a success |
| `Outcomes.RecordsAgree` | src/service.rs:519-642 | over every run: each task in flight has its job in the table with the task's own record but for an open phase, no job has two tasks, and a session's job decodes the session's own snapshot and has no task while it is recorded |
| `Outcomes.ReportIsFinal` | src/service.rs:628-640 | whatever happens after it, the job of a report has the record its task was started with and the reported outcome, except that a failure reads as a cancellation exactly if it is cancelled later |
| `Repeats.CompareIsIdempotent` | src/service.rs:1213-1217 | over every run, a repeated comparison is answered with the job of the first, which is in the table; it changes nothing and starts no task |
| `Repeats.DecodeIsIdempotent` | src/service.rs:1125-1148 | so is a repeated decode request that no stored analysis answers |
| `Repeats.FailedStaysCached` | src/service.rs:1132-1148 | a decode that failed answers the same request again |
| `Admission.StartAcceptedIff` | src/service.rs:425-432 | over every run, a new request is accepted exactly if nothing outside refuses it, fewer sessions are being recorded than may, and fewer captures and comparisons are unfinished than may wait |
| `Admission.StartRepeatedIff` | src/service.rs:412-424 | a request that a session was started for is answered with it, changing nothing, exactly unless its body differs |
| `Admission.DecodeAcceptedIff` | src/service.rs:1125-1151 | over every run, a decode request is accepted exactly if a stored analysis or an earlier job answers it or fewer decodes run than may |
| `Admission.CompareAcceptedIff` | src/service.rs:1213-1220 | likewise for a comparison |
| `Admission.DecodesAreUnlimited` | src/service.rs:546-627 | if anything can be recorded at all, for every number there is a run after which that many decodes are running |
| `CoordinatorService.Coordinator.HandleStart` | src/service.rs:383-517 | one step of the protocol, keeping its invariant: a start is refused without effect, repeats its earlier answer, or takes one slot and one reservation within the limits |
| `CoordinatorService.Coordinator.HandleArmed` | src/service.rs:521-531 | one step of the protocol, keeping its invariant: only a starting session becomes armed |
| `CoordinatorService.Coordinator.HandleFailed` | src/service.rs:532-545 | one step of the protocol, keeping its invariant: a failed capture gives back exactly its reservation and, if still held, its slot; its job is not left queued; a cancelled session stays cancelled |
| `CoordinatorService.Coordinator.HandlePublished` | src/service.rs:546-627 | one step of the protocol, keeping its invariant: the reservation becomes one running decode of a captured session whose job is in the table, or is dropped if the session was cancelled |
| `CoordinatorService.Coordinator.HandleJobFinished` | src/service.rs:628-640 | one step of the protocol, keeping its invariant: exactly the slot of the task's kind comes back, and its job has the reported outcome |
| `CoordinatorService.Coordinator.HandleSnapshot` | src/service.rs:809-874 | one step of the protocol, keeping its invariant: a reply names the session's snapshot, job and phase; the job is in the table unless it had gone missing |
| `CoordinatorService.Coordinator.HandleCancelSession` | src/service.rs:923-950 | one step of the protocol, keeping its invariant: afterwards the session is in a final phase and holds no slot; an ongoing one gave back exactly one |
| `CoordinatorService.Coordinator.HandleCancelJob` | src/service.rs:951-962 | one step of the protocol, keeping its invariant: a job that is there is cancelled or had succeeded; no slot moves |
| `CoordinatorService.Coordinator.HandleDecode` | src/service.rs:1097-1211 | one step of the protocol, keeping its invariant: a new task takes one decode slot within the limit and its job is in the table; otherwise nothing changes; a repeated key is answered with its cached job, which is in the table |
| `CoordinatorService.Coordinator.HandleCompare` | src/service.rs:1213-1259 | one step of the protocol, keeping its invariant: a new task takes one place within the limit on expensive work; otherwise nothing changes; a repeated key is answered with its cached job, which is in the table |
| `Merge.MergeKeepsStreams` | src/service.rs:2657-2688 | the merge loses, repeats and reorders nothing within a stream |
| `Merge.MergeIsSorted` | src/service.rs:2657-2688 | the merge of sorted streams is sorted by time and stream |
| `Merge.UntimedGoFirst` | src/service.rs:2657-2688 | while a record without a time stands at the head of a stream, no later time goes first, and among such heads the first stream does |
| `Merge.SortedIsUnique` | src/service.rs:2657-2688 | a sorted interleaving is determined by its streams |
| `Merge.MergeIsStableSort` | src/service.rs:2657-2688 | on sorted streams the merge is the stable sort by time |
| `Merge.BatchedRx.Next` | src/service.rs:2621-2641 | records come out one by one whatever their batching |
| `Merge.MergeRecords` | src/service.rs:2657-2688 | for any batching the sink gets every record of the merge but the sideband of later streams, up to its own failure if it fails; no head is missing |
| `Merge.DeliveredStreams` | src/service.rs:2657-2688 | of the first stream everything is delivered, of every other exactly its samples and decoder errors, each in order |
| `Lines.LinesRebuild` | src/decode/perf_script.rs:517-570 | no line holds a newline, and the lines joined again are the input |
| `Lines.StreamRecords` | src/decode/perf_script.rs:517-570 | however the reader splits its bytes, the lines handed out are those of the input, every byte is counted once, and no read gets an empty slice |
| `Lines.HandOut` | src/decode/perf_script.rs:550-556 | complete lines are handed out with guard bytes behind them |
| `Lines.HandOutTail` | src/decode/perf_script.rs:533-541 | a last line without a newline is handed out zero-terminated |
| `Lines.Drain` | src/decode/perf_script.rs:543-568 | the unfinished line survives the shift and the resizing |
| `Bits.XorBytes` | src/decode/perf_script/fastline.rs:149-173 | the exclusive or of two byte strings read as words is that of their bytes |
| `Bits.FirstNonZero` | src/decode/perf_script/fastline.rs:149-173 | the lowest set bit of a word lies in its first byte that is not zero |
| `Cursors.BuildHexTable` | src/decode/perf_script/fastline.rs:35-49 | the table maps every byte to its nibble or to 255 |
| `Cursors.SpacesByXor` | src/decode/perf_script/fastline.rs:149-173 | the trailing zeros of a word xor eight spaces, over eight, are its run of spaces |
| `Cursors.FoldDecimal` | src/decode/perf_script/fastline.rs:105-123 | the branchless fold of sixteen slots is the value of the digit run, without overflow |
| `Cursors.FoldHex` | src/decode/perf_script/fastline.rs:127-145 | shift-or folds the nibbles of the run in base 16 without losing a bit |
| `Cursors.Cursor.Dec` | src/decode/perf_script/fastline.rs:105-123 | the scan equals folding the longest digit prefix, at most sixteen digits and never past the line |
| `Cursors.Cursor.Hex` | src/decode/perf_script/fastline.rs:127-145 | the same for hexadecimal |
| `Cursors.Cursor.SkipSpaces` | src/decode/perf_script/fastline.rs:149-173 | exactly the spaces at the front are skipped, a word at a time |
| `Cursors.Cursor.TokenLength` | src/decode/perf_script/fastline.rs:177-192 | the length up to the next blank or line end, sixteen bytes at a time |
| `Scan.FastTimeAgrees` | src/decode/perf_script.rs:431-451 | the time that the fast scanner accepts is what the tolerant parser reads off the same text |
| `Scan.ZerosScale` | src/decode/perf_script.rs:438-443 | padding a fraction with zeros multiplies it by a power of ten |
| `Cursors.Cursor.ParseHead` | src/decode/perf_script/fastline.rs:232-262 | for every line and every byte behind it: the cursor leaves the line exactly if that byte is what the line wants; else the head is a function of the line alone |
| `Scan.WantedMeansIncomplete` | src/decode/perf_script/fastline.rs:232-271 | a line that wants something has no head, and never wants a blank |
| `Heads.HeadRoundTrip` | src/decode/perf_script/fastline.rs:232-262 | printing process, thread, processor, time and any rest, in every layout the scanner takes, gives a line whose head is these again, and none exactly if the time does not fit |
| `Heads.HeadIff` | src/decode/perf_script/fastline.rs:232-262 | a line has a head exactly if it is such a printing of it |
| `Heads.HexReads` | src/decode/perf_script/fastline.rs:127-145 | hexadecimal text in either case is read as the number it was printed from |
| `Cursors.TerminatedStays` | src/decode/perf_script/fastline.rs:18-26 | a line with a blank, newline or NUL behind it is never left |
| `Cursors.SlashBehindIsTaken` | src/decode/perf_script/fastline.rs:18-26 | a line of two digits with a slash behind it is left |
| `Cursors.Cursor.ParseTime` | src/decode/perf_script/fastline.rs:259-271 | the time field with its checked arithmetic, and when it leaves the line |
| `Scan.TrimEnd` | src/decode/perf_script.rs:620-629 | trailing blanks are cut off, and the byte behind the line is still no punctuation |
| `PerfFile.SortIsStable` | src/capture/perfdata.rs:528-529 | the sideband is sorted by time with records of one moment in file order |
| `PerfFile.ReadFile` | src/capture/perfdata.rs:359-531 | the reader's loop computes the specified reading of the file |
| `Refusals.UnreadIff` | src/capture/perfdata.rs:359-531 | exactly which files have a bad header, which have sections beyond their end, and which make the reader panic: those where, going from record to record, it comes to one whose fields are not there |
| `KernelRecords.RecordReads` | src/capture/perfdata.rs:384-526 | for every sample type: lost, comm, exit, fork, mapping, start and both kinds of switch records are read as what was written, ids, times, processor, counts and directions included |
| `KernelRecords.RecordsRead` | src/capture/perfdata.rs:384-526 | a data section of such records is read record by record |
| `Bundle.Pad` | src/capture/direct.rs:525-532 | a name gets its NUL and is padded to a multiple of eight |
| `Bundle.ItemReads` | src/capture/perfdata.rs:384-526 | every kind of written record is read back as what it says |
| `Bundle.TrailerReads` | src/capture/perfdata.rs:307-357 | the trailer written is the trailer read |
| `Recording.WriteBundle` | src/capture/direct.rs:534-708 | the writer's loops produce the specified bytes and the total of the rings |
| `Recording.ItemsRead` | src/capture/perfdata.rs:384-526 | records written one after the other are read one after the other |
| `Names.BundleRoundTripIff` | src/capture/direct.rs:534-708 | the reader recovers the parameters, the sideband in stable time order, and the bytes of every non-empty ring with its thread, if and only if all names fit |
| `Recovery.DistinctIs` | src/decode/native.rs:217-241 | a schedule is strictly ascending and holds exactly the runs on its processor |
| `Recovery.RingBelongs` | src/decode/native.rs:217-241 | the schedule of each ring's pseudo processor is its one thread |
| `Names.NameFitsIff` | src/capture/direct.rs:495-532 | exactly which names fit a record of sixteen-bit size |
| `Names.NamedItemReadIff` | src/capture/perfdata.rs:384-526 | the reader reads a named record back exactly if its name fits; a size that wraps below eight stops it, and any other reading is a record of the same kind with a beginning of the name, of a stated length |
| `Splitting.SplitByCpus` | src/capture/perfdata.rs:95-168 | the splitter's loops produce the specified file or error |
| `Splitting.CopyRecords` | src/capture/perfdata.rs:120-142 | the copied records |
| `Splitting.MoveFeatures` | src/capture/perfdata.rs:145-161 | the relocated feature table and its blobs |
| `Selection.EntryMoves` | src/capture/perfdata.rs:384-526 | a record means the same wherever it stands |
| `Selection.KeptReads` | src/capture/perfdata.rs:120-142 | reading the copied records gives the original entries without the traces of other processors |
| `SplitMeaning.SplitPreservesMeaning` | src/capture/perfdata.rs:95-168 | the split of a well-formed file has the same parameters and sideband, and exactly the traces of the chosen processors, byte for byte |
| `SplitMeaning.SplitPreservesFeatures` | src/capture/perfdata.rs:145-164 | every feature section is found in its place of the table with the same bytes |
| `BundleSplit.SplitBundle` | src/capture/perfdata.rs:95-168 | splitting a written bundle keeps everything but the other rings |
| `Tsc.TscToNsExactIff` | src/capture/perfdata.rs:194-200 | the quotient and remainder form is the exact conversion up to wrapping if and only if the remainder's product fits |
| `Tsc.SmallParametersFit` | src/capture/direct.rs:463-469 | a shift of at most 32 and a 32-bit multiplier make it fit |
| `Tsc.LargeShiftFails` | src/capture/perfdata.rs:194-200 | a concrete clock for which it does not fit |
| `Tsc.TscToNsMonotone` | src/capture/perfdata.rs:194-200 | later ticks have no earlier times |
| `Tsc.RoundTripLoss` | src/capture/perfdata.rs:203-209 | converting back loses exactly the ticks that rounding dropped, at most the rounded-up ticks of a nanosecond |
| `Tsc.SeekBrackets` | src/capture/perfdata.rs:203-209 | seeking lands on a tick that is not later, and every later tick has reached the time |
| `Psb.PsbOffsets` | src/decode/native.rs:77-93 | the boundaries found do not overlap, and every occurrence starts inside one of them |
| `Psb.CompleteIsUnique` | src/decode/native.rs:77-93 | these properties leave one answer only |
| `Psb.SplitAtPsb` | src/decode/native.rs:98-112 | the chunks tile the buffer, are not empty, start at boundaries, and are long enough |
| `Psb.AtMostPartsIff` | src/decode/native.rs:95-112 | no buffer of a length gives more chunks than parts if and only if the length allows no exception; up to 2^20 parts none does |
| `Page.LargestIsBest` | src/analysis/page.rs:68-92 | the chosen field is a candidate of the greatest size, and none is chosen exactly when there is no candidate |
| `Page.ShrinkIsLighter` | src/analysis/page.rs:67-125 | each shortening reduces the total length of arrays and strings |
| `Halving.OneFieldHalved` | src/analysis/page.rs:67-125 | one shortening keeps the first half of the array or string that saves most, and leaves every field beside it as it was |
| `Fitting.AbridgeAgain` | src/analysis/page.rs:104-112 | a string cut twice is still a beginning of the original, cut between characters |
| `Fitting.ShrinkAbbreviates` | src/analysis/page.rs:67-125 | a shortened row has the same keys and scalars, and arrays and strings that begin like the original |
| `Fitting.ShrinkRecords` | src/analysis/page.rs:113-123 | every field that changed is listed as cut |
| `Fitting.FitJson` | src/analysis/page.rs:27-62 | the loop ends and computes the specified page |
| `Fitting.FitShows` | src/analysis/page.rs:27-62 | a page shows a beginning of its rows and resumes right behind them, or its one row is left out; what is not left out fits |
| `Fitting.LoneRowOmittedIff` | src/analysis/page.rs:47-57 | a lone row is left out exactly when none of its shortened forms fits |
| `Fitting.OmittedIff` | src/analysis/page.rs:27-62 | a page of any number of rows has its row left out exactly if every beginning of it and every shortened form of its first row is over budget |
| `Fitting.FetchOmitsIff` | src/analysis/page.rs:15-62 | so has a fetched page, in terms of the rows it starts from |
| `Fitting.FetchShows` | src/analysis/page.rs:15-23 | a fetched page holds the rows from its offset on, and its cursor is the row behind them |
| `Fitting.CollectsAllIff` | src/analysis/page.rs:15-62 | following the cursors delivers every row once, in order, at most shortened, if and only if no visited page is blocked |
| `Fitting.BlockedPageRepeats` | src/analysis/page.rs:52-56 | a blocked page names itself as the next page |
| `PageLengths.LongRowRepeats` | src/analysis/page.rs:27-125 | for every budget in bytes: a one-item array holding a longer string is never shortened, and its page is a notice that names itself as the next page |
| `PageLengths.DefaultBudgetRepeats` | src/model/config.rs:29 | under the default budget 40000 letters give such a page, and the notice fits |
| `Fitting.RefitKeepsOrResets` | src/mcp.rs:321-327 | a second fitting at offset 0 changes nothing that fits; if even the notice is over budget it resets the cursor |

## Left out

- Spilling to disk and resident budgets: the reconstructor keeps all rows in memory.
- Gap reasons, quality notes, missing-image notes beyond the list of paths, unwind examples, coverage segments, comm names, the symbol trigger and the smallest time step: texts and counters that no modelled row depends on.
- Inline attribution, disassembly and line tables: results of outside decoders.
- libipt block decoding, its caches and resynchronisation.
- Overflow of 32-bit ids: ids are unbounded numbers here.
- Reconstruction: `sort_by_key` and hash maps are functions and maps; their order is used only where the source sorts.
- Laminar.PoppedKeepsLaminar: says nothing about spans that are not Complete, because the source promises nothing there; a frame opened at a pending trace end may start after the time its thread has gone back to.
- Coordinator: sessions and jobs restored from disk, status, prune and doctor; generated ids are parameters that are fresh; the checks on a start request and the success of storing a session are flags of the event.
- Coordinator: the effects of capture, decode and compare tasks other than their one report; the reply of a job cancellation and the flag that a decode was cached.
- Merge.MergeRecords: the heap is a set with a least element.
- Lines.StreamRecords: read errors, and what becomes of a line after it was handed out, other than `TrimEnd`.
- Cursors.Cursor.ParseHead: the rest of a sample line behind its time (event, flags, addresses, instruction bytes); there every step is bounded by the token length.
- Scan.FastTimeAgrees: the tolerant parser's trimming of surrounding Unicode blanks, which the scanner's text does not have.
- PerfFile.ReadFile: addresses that overflow 64 bits; names are bytes, without the replacement of invalid UTF-8; a read past the end of the file is the outcome `Panicked`.
- Recovery.RingBelongs: only for bundles whose names fit, which by `BundleRoundTripIff` are exactly those that are recovered.
- BundleSplit.SplitBundle: likewise.
- Recording.WriteBundle: the values of the PMU words are parameters, and so is everything read from `/proc` and from the rings.
- Page.ShrinkIsLighter: the serialized size is any function; a field is addressed by its position, keys being distinct; the row is rewritten as a value.
- Fitting.FitJson: the envelope's other members, which fitting never touches; offsets that saturate at the largest word.
- Hotpath grouping, path caches, comparison rows, timelines beyond self time, CLI and MCP presentation.
- The conversion of sideband entries into records, and the recovery of threads by the native decoder beyond its schedules.
- The store's directories, locks, hashing and cleanup, process supervision and signals.
