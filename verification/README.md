# Pit: a verified model of the agent loop and its incremental algorithms

Pit is a coding-agent harness. This project models, in Dafny, the parts of it where a mistake is
hardest to see and proves what they promise:

- the agent loop: the run loop with its guard retries, the three tool-batch executors under every
  interleaving, speculative tool execution, delta coalescing, and the reducer behind the loop;
- the terminal input path: the escape-sequence tokenizer and the stdin buffer with bracketed paste;
- the sixel encoder, against a reader of sixel data written from the VT330/VT340 Programmer
  Reference Manual, Volume 2, Chapter 14;
- the virtualized transcript container with its incremental flatten and hit test;
- the incremental marker counter of the overthink guard, the UUIDv7 generator (RFC 9562), the
  fallback chain, the client cache, the proxy's event processor, and the pending-message queue.

Code that changes things step by step is a method with loops and invariants, proved against a
specification function of the same module; objects are classes. What the source promises is then
proved about those functions, or is the method's own postcondition. Tool completions, hooks, clocks,
aborts and throwing listeners are nondeterministic choices or function-valued oracles, so every
guarantee is for all of them.

## Modules

| module | what it models |
|---|---|
| Integers, Options, Utf16 | larger and smaller; an option type; JavaScript strings as sequences of 16-bit code units |
| EscapeSequences, TokenizerTheorems | the sequence recognizer and the tokenizer; lossless, bounded, chunk invariant |
| StdinBuffers, StdinTheorems, PasteTheorems | the stdin buffer class; paste and key delivery over whole runs; streams of keys and pastes cut in any way |
| AgentEvents | messages, events, ways to read a trace, late updates |
| ToolBatches | the sequential, parallel and partitioned executors and their unwind |
| Speculations | speculative execution and the registry of per-tool abort controllers |
| StreamResponses | one stream attempt: coalescing, guard interrupts, rollback, publication |
| AgentRuns | turns, retries, the turn budget, both entry points, the agent's reducer |
| SixelDecoding, Sixels, PetSizes | the reader, the encoder proved against it, the size policy |
| VirtualizedContainers | the render cache and its hit test |
| OverthinkMarkers, OverthinkTrackers | the pattern scan, its local meaning, the incremental tracker |
| Uuids | packing, text order, and the generator over every clock |
| FallbackChains | the fallback chain with cooldowns |
| ClientCaches | the LRU cache |
| Proxies | the proxy's event processor and its read loop |
| MessageQueues | the queue of pending messages |

## Findings

Where a promise fails, the exact condition is proved:

- Tokenizing depends on how the input is cut at exactly one kind of cut: right after a complete
  ESC ESC, before `[`, `]`, `O`, `P` or `_` (`ChunkInvariance`).
- Surrogate pairs are kept whole (`PairsStayWhole`), except directly after an ESC, which takes the first
  half along as a meta key (`EscapeSplitsPair`).
- The 64 KiB forced flush of the stdin buffer can never happen: the remainder is at most 4096 long
  (`ReachableIsBounded`). The model therefore has no such branch.
- The paste cap is not checked for the chunk that opens a paste. So with chunks of at most `longest`
  characters a paste buffer holds at most the cap or `longest - 1` (`StepIsBounded`), and some run
  passes the cap if and only if `longest > MAX_PASTE + 1` (`CapIsPassed`; `OpensOverCap` is the run).
- What precedes a paste marker is delivered up to its incomplete end, which is lost; nothing is lost
  if and only if tokenizing it leaves no remainder (`LostBeforePaste`; ESC `[` before a paste is
  `EscapeBeforePasteIsLost`). An empty key event comes from an empty chunk on an empty buffer, even
  during a paste, and from nothing else (`EmptyKeyEvent`).
- When keys precede a paste, what is delivered depends on how the input is cut. It is what the whole
  input gives if and only if the cuts among the keys are harmless and at each cut inside the start
  marker the marker's part waits and adds no key (`KeysCutUp`, and `StreamCutUp` for whole streams).
  After ESC O a cut behind the marker's ESC makes keys of the rest of the marker and of the body
  (`MarkerCutAfterEscapeO`).
- A tool whose execution was given up, or that reports after it settled, still emits updates. So the
  order, the brackets and the life of a call hold for starts, ends and the updates on time; for all
  events they hold exactly as far as no update is late: parallel-safe calls come wholly before
  sequential ones if and only if no parallel-safe call reports after a sequential one started
  (`OrderedUnlessTooLate`; `LateReport` is a run in which one does), a run keeps its brackets if and
  only if every late update comes during a turn (`StrictUnlessLate`, `ReportOutsideTurn`), and a
  listener sees a call live its life if and only if none of its updates is late (`SeenIsLife`,
  `SeenUnlessLate`).
- Late updates apart, a run is properly bracketed if and only if `maxTurns` is at least 1 (`RunAgentLoop`).
- A provider that sends several `start` events leaves its earlier partial messages in the context
  (`StreamAssistantResponse`).
- The overthink counter never undercounts; it overcounts by exactly one for each cut directly between
  a marker and a following word character (`TotalIsWholePlusFalseCuts`, `WaitingCutIsFalse`).
- The fallback chain reads the clock twice in a waiting round. When the soonest cooldown expires
  between the two readings it gives up although an entry has become eligible (`WaitForCooldown` gives
  the exact condition); with a clock that stands still during a round it never does (`RunChain`).
- After a replacement of the children from outside that keeps their number, the hit test names the
  child that rendered a row if and only if the child now at its place is still that one
  (`HitAfterReplacement`; `ReplacedChildIsNamed` is a run in which it is not).
- Events that a proxy sends after `done` are still applied. When reading ends without a failure, the
  message is free of streaming fields if and only if no index is left open by the events: a call's
  start or a delta opens it, even after the call's end; the call's end, a text or thinking start at
  the same index, or `done` closes it (`ReadStream`; `CallAfterDoneStaysOpen` is a stream that leaves
  one open).

## Model

| member | source | states |
|---|---|---|
| TokenizerTheorems.MinimalIsForm | packages/tui/src/stdin-buffer.ts:58-208 | the recognizer accepts a sequence for the first time at its end if and only if it has one of the standard forms: a mouse report, a control sequence with exactly one final character, a control string whose terminator does not occur before, a three-character SS3 key, or a meta key |
| TokenizerTheorems.EmittedForms | packages/tui/src/stdin-buffer.ts:221-327 | every emitted escape sequence has one of these forms, is a lone ESC, or is a forced flush of 4096 |
| EscapeSequences.ScanCandidates | packages/tui/src/stdin-buffer.ts:221-327 | the completion scan finds the shortest prefix of the window that is no longer incomplete |
| EscapeSequences.WindowFront | packages/tui/src/stdin-buffer.ts:221-327 | looking at a window of 4097 characters decides the same as looking at the whole tail |
| EscapeSequences.EscapeToken | packages/tui/src/stdin-buffer.ts:221-327 | an escape attempt decides what the specification's first step does: emit a length, or hold |
| EscapeSequences.PlainRun | packages/tui/src/stdin-buffer.ts:221-327 | the plain-text fast path emits the same sequences as one step at a time, surrogate pairs whole |
| EscapeSequences.ExtractCompleteSequences | packages/tui/src/stdin-buffer.ts:221-327 | the whole loop computes the recursive specification of tokenizing |
| TokenizerTheorems.ExtractLossless | packages/tui/src/stdin-buffer.ts:221-327 | sequences then remainder give back the input; no sequence is empty; the remainder is at most 4096 long and tokenizes to itself |
| TokenizerTheorems.ExtractShapes | packages/tui/src/stdin-buffer.ts:49-105 | every emitted sequence is a lone ESC, a shortest complete sequence of at most 4096, a forced 4096 flush, one character, or a surrogate pair |
| TokenizerTheorems.PairsStayWhole | packages/tui/src/stdin-buffer.ts:221-327 | no emitted character is the first half of a surrogate pair whose second half follows; a first half at the very end waits |
| TokenizerTheorems.EscapeSplitsPair | packages/tui/src/stdin-buffer.ts:221-327 | but ESC before a pair takes its first half along, as a meta key, and the second half comes out alone |
| TokenizerTheorems.ChunkInvariance | packages/tui/src/stdin-buffer.ts:221-327 | tokenizing in two pieces equals tokenizing at once if and only if the cut is not the ESC ESC cut; and what comes out at that cut |
| TokenizerTheorems.ChunksInvariance | packages/tui/src/stdin-buffer.ts:221-327 | the same for any number of pieces, carrying the remainder: if and only if every cut is harmless, so no harmful cut is made up for by a later one |
| TokenizerTheorems.SgrFallbackAddsNothing | packages/tui/src/stdin-buffer.ts:113-152 | the second test for SGR mouse reports accepts nothing that the regular expression does not |
| TokenizerTheorems.SgrIsThreeRuns | packages/tui/src/stdin-buffer.ts:113-152 | what the regular expression matches is three digit runs between semicolons after `<`, then M or m |
| StdinBuffers.WindowedSearch | packages/tui/src/stdin-buffer.ts:397-424 | searching for the end marker from `prevLen - 5` finds what a search from the start finds |
| StdinBuffers.TurnIsValid | packages/tui/src/stdin-buffer.ts:397-504 | a turn of the re-feed loop keeps what holds between turns, and ends in a valid state when it is the last |
| StdinBuffers.StdinBuffer.EmitDataSequence | packages/tui/src/stdin-buffer.ts:506-515 | a key is delivered, or swallowed as the repeat of its Kitty report, and the pending code point changes accordingly |
| StdinBuffers.StdinBuffer.EmitSequences | packages/tui/src/stdin-buffer.ts:477-479 | a list of keys is delivered in order, each suppressed or not by what came right before it |
| StdinBuffers.StdinBuffer.Process | packages/tui/src/stdin-buffer.ts:359-504 | one chunk changes the state and emits events exactly as the specification with full searches does; validity is kept |
| StdinBuffers.StdinBuffer.Refeed | packages/tui/src/stdin-buffer.ts:397-504 | the re-feed loop terminates and computes the recursive specification |
| StdinBuffers.StdinBuffer.ContinuePaste | packages/tui/src/stdin-buffer.ts:398-437 | the windowed step of an open paste is the step with a full search |
| StdinBuffers.StdinBuffer.OpenPaste | packages/tui/src/stdin-buffer.ts:439-472 | a start marker: what precedes it is delivered as keys, then the paste opens and perhaps closes |
| StdinBuffers.StdinBuffer.ClosePaste | packages/tui/src/stdin-buffer.ts:410-417 | the paste is delivered up to its end marker, paste mode is left, and what follows is handed back |
| StdinBuffers.StdinBuffer.EmitBefore | packages/tui/src/stdin-buffer.ts:441-447 | only the complete sequences before a paste marker are delivered |
| StdinBuffers.StdinBuffer.TakeSequences | packages/tui/src/stdin-buffer.ts:474-502 | the keys of the buffer are delivered, the remainder kept, and the timer armed if and only if something remains |
| StdinBuffers.StdinBuffer.Flush | packages/tui/src/stdin-buffer.ts:517-531 | hands out the whole buffer and empties it; a paste in progress is untouched |
| StdinBuffers.StdinBuffer.OnTimeout | packages/tui/src/stdin-buffer.ts:493-501 | the timer delivers the buffered remainder as one key, never suppressed |
| StdinTheorems.StepIsValid | packages/tui/src/stdin-buffer.ts:359-542 | every input keeps every state valid: no paste marker waits unhandled, and the buffer is an irreducible remainder |
| StdinTheorems.StepIsBounded | packages/tui/src/stdin-buffer.ts:426-491 | the buffer stays within 4096, and the paste buffer within the cap or one character less than the longest chunk |
| StdinTheorems.ReachableIsBounded | packages/tui/src/stdin-buffer.ts:481-491 | over every run the forced-flush threshold is never reached |
| StdinTheorems.CapIsPassed | packages/tui/src/stdin-buffer.ts:426-461 | with chunks of at most a given length some run holds more than the cap in its paste buffer, if and only if that length is more than one over the cap |
| StdinTheorems.OpensOverCap | packages/tui/src/stdin-buffer.ts:450-461 | a body of any length without an end marker, coming with the last character of the start marker, is held whole |
| StdinTheorems.LostBeforePaste | packages/tui/src/stdin-buffer.ts:439-447 | what precedes a start marker comes out up to its incomplete end, which is what is lost; nothing is if and only if there is none |
| StdinTheorems.EscapeBeforePasteIsLost | packages/tui/src/stdin-buffer.ts:439-472 | ESC and a bracket before a paste: the paste arrives and the two characters never do |
| StdinTheorems.EmptyKeyEvent | packages/tui/src/stdin-buffer.ts:380-383 | an empty key event comes from an empty chunk on an empty buffer and from no other input in any state |
| StdinTheorems.PasteIsTextBeforeFirstEnd | packages/tui/src/stdin-buffer.ts:397-437 | for every chunking of an open paste below the cap, the paste delivered is the text before the first end marker of the whole input, and everything after the marker is handled exactly as if it came to an idle buffer |
| StdinTheorems.PasteOverCap | packages/tui/src/stdin-buffer.ts:426-437 | the chunk that takes an open paste past the cap without an end marker delivers the paste up to the cap and leaves the buffer idle |
| StdinTheorems.TimerDelivers | packages/tui/src/stdin-buffer.ts:493-501 | when the timer fires, what waits is delivered as one key, never taken for a repeat, and nothing waits any more |
| StdinTheorems.LoneEscape | packages/tui/src/stdin-buffer.ts:493-501 | a lone ESC waits, and is delivered when the timer fires |
| StdinTheorems.DeliveredIsEmitted | packages/tui/src/stdin-buffer.ts:506-515 | a key is swallowed if and only if it is one character repeating the report right before it |
| StdinTheorems.KittyRoundTrip | packages/tui/src/stdin-buffer.ts:213-219 | the report of a code point reads back as that code point if and only if it is at least 32 |
| StdinTheorems.ReportIsRead | packages/tui/src/stdin-buffer.ts:213-219 | every report made of digits and up to two fields, of which the first may be empty, is read with its code point, if that is at least 32 |
| StdinTheorems.ReadIsReport | packages/tui/src/stdin-buffer.ts:213-219 | and whatever is read has this form |
| StdinTheorems.KeysDoNotDependOnChunks | packages/tui/src/stdin-buffer.ts:359-504 | outside pastes the key events of any chunking are those of the whole input, ESC ESC cuts aside |
| PasteTheorems.PasteArrivesWhole | packages/tui/src/stdin-buffer.ts:397-472 | a bracketed paste below the cap, cut in any way, even inside its markers, is one paste event with exactly the body, no key event, and an idle buffer |
| PasteTheorems.RestAfterPaste | packages/tui/src/stdin-buffer.ts:411-469 | what follows a paste in its chunk is delivered exactly as by an idle buffer, and ends in its state, whatever the size of the body |
| PasteTheorems.RestAfterOpenPaste | packages/tui/src/stdin-buffer.ts:411-423 | the same when the start of the body had come before |
| PasteTheorems.KeysCutUp | packages/tui/src/stdin-buffer.ts:439-504 | keys and then a paste, cut in any way: what is delivered is what the whole input delivers if and only if the cuts among the keys are harmless and at those inside the start marker its part waits and adds no key |
| PasteTheorems.StreamCutUp | packages/tui/src/stdin-buffer.ts:359-504 | a stream of any number of keys and pastes, cut in any way: exactly the keys and pastes of the stream are delivered, in order, if and only if the cuts are such; and then the state is that of the stream |
| PasteTheorems.StreamAtOnce | packages/tui/src/stdin-buffer.ts:359-504 | the whole stream as one chunk delivers exactly its keys and pastes |
| PasteTheorems.KeysIffHarmless | packages/tui/src/stdin-buffer.ts:359-504 | without a paste the keys of any chunking are those of the whole input if and only if every cut is harmless |
| PasteTheorems.CompleteKeysAreSafe | packages/tui/src/stdin-buffer.ts:221-327 | if tokenizing what precedes the marker leaves nothing, every cut inside the marker is one at which its part waits and adds no key |
| PasteTheorems.MarkerCutAfterEscapeO | packages/tui/src/stdin-buffer.ts:439-504 | ESC O and a paste: whole, the body arrives as a paste; cut behind the marker's ESC, it does not |
| ToolBatches.StepIsValid | packages/agent/src/agent-loop.ts:1639-1747 | one step of any pipeline keeps every call's own events, late updates apart, a prefix of its life: start, notes, end |
| ToolBatches.LateStepIsValid | packages/agent/src/agent-loop.ts:2343-2358 | a late update of a call that has started changes no result message and no own event of any call |
| ToolBatches.LateUpdates | packages/agent/src/agent-loop.ts:2388-2438 | any number of late updates of tools given up or settled add to the trace and change nothing else |
| ToolBatches.Await | packages/agent/src/agent-loop.ts:1788-1792 | whatever the pipelines in flight and the tools given up do during an await, in any order, no result message appears, every call's own events stay a prefix of its life, and a call not in flight adds none |
| ToolBatches.AwaitAll | packages/agent/src/agent-loop.ts:1788-1792 | the join ends with every pipeline finished, or at the first one that throws; it terminates |
| ToolBatches.EmitOwn | packages/agent/src/agent-loop.ts:1515-1555 | the executor emits the next own event of a call that is not in flight, and nothing else of its own |
| ToolBatches.RunInline | packages/agent/src/agent-loop.ts:1515-1555 | a call run by the executor itself lives its whole life, or a listener threw; no other call moves |
| ToolBatches.RunConcurrently | packages/agent/src/agent-loop.ts:1780-1792 | after the join every call of the subset has lived its whole life, whatever the interleaving, or a listener threw; the starts come in order before anything else any of them emits |
| ToolBatches.EmitParallelStarts | packages/agent/src/agent-loop.ts:1620-1629 | the starts of a subset come out serially in order, before any of its calls emits anything else |
| ToolBatches.SynthesizeMissingToolResults | packages/agent/src/agent-loop.ts:2588-2608 | the unwind emits exactly the aborted results of the calls without one, in call order, and no tool event |
| ToolBatches.EmitResult | packages/agent/src/agent-loop.ts:2567-2570 | a result message starts and then ends, with no other message between |
| ToolBatches.ReplayResults | packages/agent/src/agent-loop.ts:1950-1956 | deferred results are started and ended once each in the original call order |
| ToolBatches.SkipRemaining | packages/agent/src/agent-loop.ts:1562-1586 | after an abort every remaining call gets a start, an aborted end and its result, in order, each before the next call starts |
| ToolBatches.RunSequentialSubset | packages/agent/src/agent-loop.ts:1878-1925 | the sequential calls live one after the other up to the cut, which is the end or comes after an abort; exactly those that start after an abort, the first aside, are skipped |
| ToolBatches.FillAborted | packages/agent/src/agent-loop.ts:1930-1948 | exactly the calls that had not run get an aborted life, one after the other; the others keep theirs |
| ToolBatches.PartitionIndices | packages/agent/src/agent-loop.ts:1848-1854 | the two index lists are ascending and are the calls to sequential tools and the others, in their order |
| ToolBatches.ChooseRoute | packages/agent/src/agent-loop.ts:1263-1303 | counting sequential calls finds the route: serial if forced, or if all calls are sequential, or if some are and partitioning is off; concurrent if none is |
| ToolBatches.ExecuteToolCallsParallel | packages/agent/src/agent-loop.ts:1764-1811 | completed: every call lived its whole life and has one started and ended result in call order; unwound: every call is paired with an aborted result; either way the starts come first, in call order, and it unwinds only if a listener can throw |
| ToolBatches.ExecuteToolCallsSequential | packages/agent/src/agent-loop.ts:1497-1600 | the same one call at a time: every own event and the result of a call come before every own event of each later call, also when unwound; exactly the calls that start after an abort, the first aside, are skipped |
| ToolBatches.ExecuteToolCallsPartitioned | packages/agent/src/agent-loop.ts:1838-1966 | the same for a mixed batch: the parallel subset is joined first, results come in original order; however it ends, no sequential call has an event in its life before every parallel-safe call is done, the sequential calls live one after the other, and exactly those that start after an abort, the first aside, are skipped |
| ToolBatches.ExecuteToolCalls | packages/agent/src/agent-loop.ts:1253-1303 | the batch is done, or unwound if listeners can throw; and its trace has the order of the route chosen, completed or unwound: serial, all starts first, or parallel-safe calls wholly before sequential ones that take turns; with exactly the calls skipped that this route skips after an abort |
| ToolBatches.SequentialCallsRunAlone | packages/agent/src/agent-loop.ts:1253-1303 | on any route no call overlaps a call to a sequential tool, nor any other call when calls are forced to be sequential; two such calls come in their order |
| ToolBatches.ParallelCallsStartFirst | packages/agent/src/agent-loop.ts:1253-1303 | two calls to parallel-safe tools start in their order before either emits anything else, unless calls are forced to be sequential, or partitioning is off and some call is sequential |
| ToolBatches.CallsStartAndEndOnce | packages/agent/src/agent-loop.ts:1497-1966 | at every moment of every run each call has at most one start and one end, the end exactly when its life is complete |
| ToolBatches.SequentialAfterParallel | packages/agent/src/agent-loop.ts:1813-1872 | completed or unwound, whatever a parallel-safe call emits in its life, from its start to its end, precedes whatever a sequential call emits in its own |
| ToolBatches.OrderedUnlessTooLate | packages/agent/src/agent-loop.ts:2343-2358 | with late updates counted too, every event of a parallel-safe call precedes every event of every sequential one if and only if no parallel-safe call reports after a sequential one has started |
| ToolBatches.SeenIsLife | packages/agent/src/agent-loop.ts:2343-2358 | a listener, who cannot tell late updates from others, sees a call live its life if and only if none of its updates is late |
| ToolBatches.LateReport | packages/agent/src/agent-loop.ts:2388-2438 | a concrete run: a cancelled parallel-safe tool keeps running and reports while a sequential call runs, so neither the order nor its own life holds for all events |
| ToolBatches.UnwoundStays | packages/agent/src/agent-loop.ts:1807-1810 | pipelines left behind by a throw cannot disturb the results the unwind put down, nor the order of the two subsets |
| ToolBatches.EveryCallHasItsResult | packages/agent/src/agent-loop.ts:2572-2608 | completed or unwound, the result messages carry exactly the calls' ids in call order |
| ToolBatches.ResultsTellOutcomes | packages/agent/src/agent-loop.ts:2016-2018 | in a completed batch each result carries the content and the error flag that the end of its call had, and the batch terminates if and only if there are calls and all of them ended asking for it |
| Speculations.RegistryHoldsLiveController | packages/agent/src/agent-loop.ts:1317-1343 | over every history of registrations and releases, an id reaches a controller if and only if that registration is still live; late releases of earlier owners never unregister it |
| Speculations.AbortRegistry.Release | packages/agent/src/agent-loop.ts:1339-1341 | the compare-and-delete keeps the registry equal to its history |
| Speculations.AbortRegistry.Abort | packages/agent/src/agent-loop.ts:1481 | aborting an id trips the controller it reaches now, if any, and no other |
| Speculations.SpeculationController.MaybeStart | packages/agent/src/agent-loop.ts:1415-1451 | a speculation starts if and only if every gate is open and the id has none, under a fresh controller, and then records preparation, execution and events of the call |
| Speculations.SpeculationController.RunBuffered | packages/agent/src/agent-loop.ts:1424-1444 | the entry holds what the call prepares to, what it executes to unless it was decided at once, and the events of both in order |
| Speculations.SpeculationController.Take | packages/agent/src/agent-loop.ts:1459-1468 | a matching speculation is consumed once, a mismatching one discarded once and told to abort, and the books of the attempt and of the registry balance |
| Speculations.SpeculationController.DiscardLeftovers | packages/agent/src/agent-loop.ts:1471-1476 | afterwards every speculation started since the attempt began was consumed or discarded, exactly once and not both, by its own books and by those of the registry; the controllers that the leftover ids reach were told to abort |
| Speculations.ClosedOn | packages/agent/src/agent-loop.ts:554-562 | spans in which every speculation started was consumed or discarded, each once, join into such a span |
| Speculations.SpeculationController.Settle | packages/agent/src/agent-loop.ts:1478-1494 | a discarded speculation is cleaned up once, and its late release is one more release in the registry history |
| Speculations.RunCall | packages/agent/src/agent-loop.ts:1523-1553 | a call run by the executors themselves does what the unspeculated call does, under a controller of its own if it is executed |
| Speculations.CallRunsThrough | packages/agent/src/agent-loop.ts:2475-2543 | hints change only what an error says, an annotation only what a success says; whatever was executed goes through the after-hook last, a result decided at once does not |
| Speculations.SpeculationController.PrepareParallelCall | packages/agent/src/agent-loop.ts:1668-1691 | the first stage hands on the preparation of the call itself, and its execution exactly when a matching speculation, now consumed, did it, with the events of just these |
| Speculations.SpeculationController.FinalizeParallelCall | packages/agent/src/agent-loop.ts:1697-1747 | decided at once, executed in the stream or executed here: all three ways end in the unspeculated work, and only the last registers a controller |
| Speculations.SpeculationController.RunParallelCall | packages/agent/src/agent-loop.ts:1639-1747 | transparency: whether its speculation was consumed, discarded or never started, the call emits the same events and ends with the same outcome as unspeculated; a matching speculation is consumed and its tool not run again |
| StreamResponses.Feed | packages/agent/src/agent-loop.ts:952-959 | the rule matcher receives the characters of the right scope until it fires |
| StreamResponses.FlushPendingDelta | packages/agent/src/agent-loop.ts:974-990 | a flush moves the pending delta to the queue and loses no character |
| StreamResponses.FlushAndDrain | packages/agent/src/agent-loop.ts:992-995 | after a drain everything streamed so far has been emitted, in order |
| StreamResponses.Drain | packages/agent/src/agent-loop.ts:939-941 | waiting for the chain emits every queued update, in order, and nothing else |
| StreamResponses.TakeBegin | packages/agent/src/agent-loop.ts:1029-1039 | a start puts the partial message into the context and announces it |
| StreamResponses.TakeDelta | packages/agent/src/agent-loop.ts:1041-1103 | for every clock a delta is emitted, queued or pending behind everything before it, and fed to the matcher; from then on the context ends with its partial message |
| StreamResponses.TakeBoundary | packages/agent/src/agent-loop.ts:1105-1144 | a boundary is emitted only after every delta before it, with its own partial message |
| StreamResponses.ReadStream | packages/agent/src/agent-loop.ts:1027-1157 | the loop reads up to the terminal event or the end, and keeps emitted, queued and pending text equal to the text streamed; it is cut short only by a listener, a guard or a time limit that is there |
| StreamResponses.FinalizeInterrupt | packages/agent/src/agent-loop.ts:998-1006 | an interrupt drains, rolls the partial message back and announces it as guard-aborted, with the text and calls it had at the last event read |
| StreamResponses.Publish | packages/agent/src/agent-loop.ts:799-812 | the final message takes the place of the last partial one, or is announced and added; it is ended exactly once |
| StreamResponses.TimeOut | packages/agent/src/agent-loop.ts:1205-1226 | the round watchdog drains and publishes an error turn |
| StreamResponses.StreamAssistantResponse | packages/agent/src/agent-loop.ts:823-1226 | however the attempt ends, what was emitted is what was streamed, with the boundaries in place; each update shows the partial message of an event read no earlier than the last character it contains, a boundary its own; the context is as before, or ends with the final message, which is the provider's unless the stream broke off or took too long; the matcher saw the whole text |
| StreamResponses.AttemptInOrder | packages/agent/src/agent-loop.ts:998-1204 | an attempt leaves no message started and not ended, unless the provider announced several |
| StreamResponses.CoalescingConservesText | packages/agent/src/agent-loop.ts:920-995 | per kind and content index the emitted deltas concatenate to the streamed deltas, for every clock |
| AgentRuns.EmitMessage | packages/agent/src/agent-loop.ts:528-529 | a complete message is started and then ended, and keeps the order of messages |
| AgentRuns.InjectMessages | packages/agent/src/agent-loop.ts:523-534 | queued messages join transcript, context and new messages in their order |
| AgentRuns.RunAttempt | packages/agent/src/agent-loop.ts:560-573 | an attempt adds the provider's answer to transcript and context, or nothing when a guard that is there interrupts it, whatever tools report meanwhile |
| AgentRuns.StreamTurn | packages/agent/src/agent-loop.ts:545-617 | a turn makes one attempt more than it adds reminders, counted by the controllers made; its answer is that of its last attempt, or an error turn when a guard fired once more at its limit; the request was the context and the reminders; whatever earlier attempts started was consumed or discarded, each once |
| AgentRuns.AfterInterrupt | packages/agent/src/agent-loop.ts:574-616 | a guard adds its reminder on both sides and counts one retry, or gives up with its error turn exactly when its limit is reached |
| AgentRuns.RunTools | packages/agent/src/agent-loop.ts:631-650 | the results of a batch answer each call in order and join transcript, context and new messages alike; each call emitted and returned what it does unspeculated, or was skipped as the route of the batch skips after an abort; the trace has the order of that route; no other tool event came, late updates apart; it fails only if listeners can throw |
| AgentRuns.GatherWorks | packages/agent/src/agent-loop.ts:1639-1679 | on any route, with any speculations held, every call does what it does unspeculated; exactly the matching speculations of calls to parallel-safe tools are consumed, and none when the batch runs serially |
| AgentRuns.BatchIsTransparent | packages/agent/src/agent-loop.ts:1764-1811 | the own events of a call in a completed batch, late updates apart, are its unspeculated life, and its result message has that outcome, unless it was skipped after an abort |
| AgentRuns.TakeAnswer | packages/agent/src/agent-loop.ts:618-707 | the calls of an answer that did not fail are run, all in one batch, and their results carried by the end of the turn; afterwards every speculation started since the attempt began was consumed or discarded, each once; the run ends because the answer failed, the run was aborted or the hook said so, and goes on otherwise, with the steering messages that wait |
| AgentRuns.FinishTurn | packages/agent/src/agent-loop.ts:655-707 | after a turn the run ends if and only if it was aborted or the hook stops it; otherwise it goes on, with its context replaced if the hook did so, and the steering messages drained |
| AgentRuns.NextTurn | packages/agent/src/agent-loop.ts:509-707 | a due turn added to the turns so far, with what waited injected first; still faithful, within the budget, all its speculations and events accounted for |
| AgentRuns.EmitBudgetNotice | packages/agent/src/agent-loop.ts:496-508 | the notice turn ends the run, properly bracketed unless no turn was allowed at all |
| AgentRuns.RunLoop | packages/agent/src/agent-loop.ts:467-723 | a run completes unless something throws, and then is finished: turn after turn took place as it should, another one exactly as long as calls were run that did not all end the run or messages waited; its new messages are those of its turns and its outline is exactly theirs, event by event; the last turn failed, was aborted or stopped, or left nothing due, or the turns were spent and the notice says so; of the speculations started each was consumed or discarded, once |
| AgentRuns.RunAgentLoop | packages/agent/src/agent-loop.ts:346-369 | the same from new prompts, which are the first new messages; and what every finished run keeps |
| AgentRuns.RunAgentLoopContinue | packages/agent/src/agent-loop.ts:371-388 | the same for a continued context; an empty one or one that ends with an answer is refused without an event |
| AgentRuns.EveryCallIsAnswered | packages/agent/src/agent-loop.ts:627-650 | over every finished run each answer that did not fail is directly followed by one result for each of its calls, in call order, and the batches run are those of these answers, in order, unless messages from outside make calls themselves |
| AgentRuns.NextTurnFollows | packages/agent/src/agent-loop.ts:488-707 | after calls that neither all asked to end the run nor were aborted, with no stop by the hook and turns left, another turn takes place |
| AgentRuns.EndsForAReason | packages/agent/src/agent-loop.ts:493-723 | a finished run ended because its last answer failed, it was aborted, the hook stopped it, nothing was due, or the turns were spent; and then the last message says so |
| AgentRuns.QueuedIsInjected | packages/agent/src/agent-loop.ts:486-534 | each turn injects first the steering messages drained after the turn before, or the follow-ups if the run would have ended, and then the passive ones |
| AgentRuns.FinishedKeeps | packages/agent/src/agent-loop.ts:467-723 | what every finished run keeps: transcript equals new messages; messages start and end in turn unless one was started that is not ended; `agent_end` is last and carries the new messages; turns are paired if and only if maxTurns is at least 1, and with late updates counted if and only if these come during turns besides; at most maxTurns + 1 turns and maxTurns * (1 + 3 + overthinkMaxRetries) attempts; all tool events are those of the batches, in order; each batch is as if nothing had been speculated, in the order of its route, with each result in its place; calls are skipped in the last batch only, and only if the run can be aborted |
| AgentRuns.EachTurnIsRight | packages/agent/src/agent-loop.ts:488-707 | every turn of a finished run: its answer is the provider's, or a guard's at its limit, after its reminders; the request is the whole conversation so far, if the provider announces once per stream; its batch and its ending are as they should be |
| AgentRuns.WholeTrace | packages/agent/src/agent-loop.ts:467-723 | a finished run starts one turn for each of its turns, and one more for the notice; its tool events are those of its batches |
| AgentRuns.StrictUnlessLate | packages/agent/src/agent-loop.ts:2343-2358 | a trace keeps the brackets with all its events if and only if it keeps them without the late updates and each of these comes during a turn |
| AgentRuns.ReportOutsideTurn | packages/agent/src/agent-loop.ts:2388-2438 | one late update between turns or after the end breaks the brackets of any trace whose other events keep them |
| AgentRuns.SeenUnlessLate | packages/agent/src/agent-loop.ts:2343-2358 | over a run a listener sees of a call what the batches say if and only if none of its updates is late |
| AgentRuns.Agent.ProcessEvent | packages/agent/src/agent.ts:693-731 | the reducer keeps every ended message except guard-aborted ones, and tracks pending calls |
| AgentRuns.Agent.ProcessAll | packages/agent/src/agent.ts:693-731 | over a whole trace the transcript grows by exactly the trace's transcript |
| AgentRuns.RunPromptMessages | packages/agent/src/agent.ts:530-544 | after a normally returning run the agent's messages are the old ones followed by the run's new messages |
| SixelDecoding.ReadCommand | packages/tui/src/sixel.ts:109-113 | reading a printed control function gives its parameters back |
| SixelDecoding.ReadRunLength | packages/tui/src/sixel.ts:143-147 | a run-length code paints as many columns as it counts, and nothing else |
| SixelDecoding.ReadRepeated | packages/tui/src/sixel.ts:143-147 | so do that many equal characters |
| SixelDecoding.BandsAreDashes | packages/tui/src/sixel.ts:115-125 | the band reached is the number of separators read |
| SixelDecoding.ReadSeparators | packages/tui/src/sixel.ts:166-169 | separators move to the start of the band they count, and paint nothing |
| Sixels.ChannelToPct | packages/tui/src/sixel.ts:82-85 | the nearest percentage, half up, of a channel clamped to 0 to 255 |
| Sixels.BitsOfColumn | packages/tui/src/sixel.ts:149-153 | bit k of a column is set if and only if the pixel k rows down exists and has the color |
| Sixels.ColumnOf | packages/tui/src/sixel.ts:149-153 | the loop over six rows computes those bits |
| Sixels.EncodeColor | packages/tui/src/sixel.ts:140-161 | reading a color's run draws exactly that color's pixels of the band over what was drawn |
| Sixels.CollectUsed | packages/tui/src/sixel.ts:129-133 | the colors of a band, each once, in order of first use |
| Sixels.EncodeBand | packages/tui/src/sixel.ts:128-163 | a band's text draws all its visible pixels, and is empty if and only if there is none |
| Sixels.EncodeHead | packages/tui/src/sixel.ts:109-113 | raster attributes and palette read back as aspect 1:1, size and percentages |
| Sixels.AppendBand | packages/tui/src/sixel.ts:164-172 | lazy separators put a drawn band in its place; a blank band costs none yet |
| Sixels.EncodeBandColor | packages/tui/src/sixel.ts:135-163 | one color is drawn over the others of its band after a carriage return |
| Sixels.EncodeBands | packages/tui/src/sixel.ts:115-173 | over all bands the separators written lead exactly to the last visible one |
| Sixels.EncodeSixel | packages/tui/src/sixel.ts:100-177 | round trip: the text is a sixel string that leaves unset pixels alone; the reader sets every visible pixel to its index and no other, gets aspect, size and the palette with red, green and blue each in its place; and the number of separators is the last band with a visible pixel |
| PetSizes.FitSixelHeightPx | packages/tui/src/sixel.ts:77-80 | the largest whole number of bands that fits, at least one |
| PetSizes.PetSize | packages/tui/src/sixel.ts:345-361 | for all requests the size is within the caps, the height a multiple of 6 and at most 60, never taller than asked for beyond one band; it is the largest such height at which the width keeps its cap too, and the width follows the aspect |
| VirtualizedContainers.VirtualizedContainer.AddChild | packages/tui/src/virtualized-container.ts:71-74 | the appended child is stale; with a positive budget no child that was due stops being due |
| VirtualizedContainers.VirtualizedContainer.RemoveChild | packages/tui/src/virtualized-container.ts:76-85 | the first occurrence goes; every other child keeps its cache, its staleness and its turn to be rendered |
| VirtualizedContainers.RebuildStaleIndicesAfterRemoval | packages/tui/src/virtualized-container.ts:185-195 | an index is stale afterwards if and only if the child now there was |
| VirtualizedContainers.VirtualizedContainer.MarkChildStale | packages/tui/src/virtualized-container.ts:106-111 | the first occurrence becomes stale, nothing else changes |
| VirtualizedContainers.VirtualizedContainer.FindHotStartIndex | packages/tui/src/virtualized-container.ts:171-183 | the hot zone is the fewest last children whose cached lines fill the budget, or all of them |
| VirtualizedContainers.VirtualizedContainer.FlattenCaches | packages/tui/src/virtualized-container.ts:197-210 | lines are the concatenation of all caches, offsets its prefix sums |
| VirtualizedContainers.VirtualizedContainer.FlattenFromIndex | packages/tui/src/virtualized-container.ts:218-234 | reusing an unchanged prefix gives the same lines and offsets as a full flatten |
| VirtualizedContainers.VirtualizedContainer.RenderDue | packages/tui/src/virtualized-container.ts:132-153 | exactly the due children are rendered anew; the first changed index is found |
| VirtualizedContainers.VirtualizedContainer.RenderAll | packages/tui/src/virtualized-container.ts:120-130 | a structural change renders every child anew and nothing is stale |
| VirtualizedContainers.VirtualizedContainer.RenderChanged | packages/tui/src/virtualized-container.ts:132-168 | the incremental render ends in the same lockstep as a full one, and reuses the old array exactly when no rendered array changed |
| VirtualizedContainers.VirtualizedContainer.Render | packages/tui/src/virtualized-container.ts:113-169 | the result is the full flatten of what every child renders to now if no skipped child changed; the array is new unless no rendered array changed |
| VirtualizedContainers.VirtualizedContainer.HitTestChild | packages/tui/src/virtualized-container.ts:244-268 | finds the unique child whose span holds the row, even among empty ones; refuses if and only if the numbers differ or the row is outside; the child rendered the row unless the list was changed from outside |
| VirtualizedContainers.Act | packages/tui/src/virtualized-container.ts:71-169 | every operation changes children, caches, staleness and width as specified, and a frame is the full flatten if no skipped child changed |
| VirtualizedContainers.Play | packages/tui/src/virtualized-container.ts:71-169 | over every run each draw yields a frame of the children listed then; with a positive budget the frames are exactly those of rendering every child at every draw, as long as each outside change of the script leaves no changed child that is neither stale nor hot |
| VirtualizedContainers.ReportingIsTracking | packages/tui/src/virtualized-container.ts:106-111 | a script leaves no such child if each of its outside changes marks every component whose lines it changes, while no component is listed twice |
| VirtualizedContainers.StaysUpToDate | packages/tui/src/virtualized-container.ts:71-169 | no operation but an outside change can leave a skipped child out of date |
| VirtualizedContainers.ReportedChange | packages/tui/src/virtualized-container.ts:106-111 | nor does an outside change that reports all it changes |
| VirtualizedContainers.HitAfterReplacement | packages/tui/src/virtualized-container.ts:61-69 | after a frame and an outside replacement the hit test refuses unless the number is kept; then it names the child that rendered the row if and only if the child at its place is unchanged |
| VirtualizedContainers.ReplacedChildIsNamed | packages/tui/src/virtualized-container.ts:244-268 | a concrete run in which the hit test names a child that did not render the row |
| OverthinkMarkers.OnlyHoldOnOverlaps | packages/agent/src/overthink-guard.ts:44-73 | of all markers only "on second thought" can overlap another, the end of "hold on" |
| OverthinkMarkers.OneMarkerEach | packages/agent/src/overthink-guard.ts:70-73 | at one position at most one marker matches, so the order of alternatives does not matter |
| OverthinkMarkers.ScanIsLocal | packages/agent/src/overthink-guard.ts:188-203 | the global left-to-right search finds exactly the positions where a match ends by a local rule, each once |
| OverthinkMarkers.EndsInWindow | packages/agent/src/overthink-guard.ts:58-63 | a tail of 32 characters decides where matches end in the delta |
| OverthinkMarkers.EndsInPrefix | packages/agent/src/overthink-guard.ts:188-203 | a prefix has the matches of the whole text, and at its very end possibly one that a following word character undoes |
| OverthinkTrackers.AddedIsHits | packages/agent/src/overthink-guard.ts:188-203 | what one delta adds is the number of matches of the text so far that end in it |
| OverthinkTrackers.TotalIsWholePlusFalseCuts | packages/agent/src/overthink-guard.ts:173-211 | for every way of cutting a block the total is the whole-text count plus the number of false cuts |
| OverthinkTrackers.NeverUndercounts | packages/agent/src/overthink-guard.ts:173-211 | the total is never too small, and exact if and only if no cut is false |
| OverthinkTrackers.WaitingCutIsFalse | packages/agent/src/overthink-guard.ts:188-203 | "wait" then "ing" counts a marker that "waiting" does not hold |
| OverthinkTrackers.CountEndsBeyond | packages/agent/src/overthink-guard.ts:194-203 | the search loop counts the matches that end beyond the tail |
| OverthinkTrackers.OverthinkTracker.OnThinkingDelta | packages/agent/src/overthink-guard.ts:109-112 | the delta joins its block, and plain text is no longer watched |
| OverthinkTrackers.OverthinkTracker.OnTextDelta | packages/agent/src/overthink-guard.ts:114-119 | plain text joins its block only if watched and before any reasoning |
| OverthinkTrackers.OverthinkTracker.Accumulate | packages/agent/src/overthink-guard.ts:173-179 | size, count and tail of every block describe exactly the deltas it was given |
| OverthinkTrackers.OverthinkTracker.CountMarkers | packages/agent/src/overthink-guard.ts:188-211 | only the block of the delta changes, by the matches that reach into the delta |
| OverthinkTrackers.OverthinkTracker.GetInterruptInfo | packages/agent/src/overthink-guard.ts:131-147 | four markers of the whole text in more than 1596 characters always report rumination; fewer do so only through false cuts, and the count reported is exactly both; nothing fires after a tool call |
| Uuids.PackedOrder | packages/agent/src/uuid.ts:30-46 | bytes compare as timestamp then counter, whatever the random bits |
| Uuids.TextOrder | packages/agent/src/uuid.ts:30-54 | so does the text |
| Uuids.RoundTrip | packages/agent/src/uuid.ts:30-54 | the text gives back its bytes, and the bytes timestamp and counter: packing is injective |
| Uuids.Shape | packages/agent/src/uuid.ts:37-53 | 36 characters, dashes in place, version 7, variant 10 |
| Uuids.FillBytes | packages/agent/src/uuid.ts:30-46 | the byte array is the packing |
| Uuids.Generator.Uuidv7 | packages/agent/src/uuid.ts:15-49 | the timestamp never goes back; a stalled clock advances the counter, and its rollover the timestamp |
| Uuids.Generate | packages/agent/src/uuid.ts:1-54 | over every run and every clock all UUIDs sort in the order they were made, as long as the timestamps stay below 2^48; and each is made of the stamp the run gives it |
| Uuids.StampsIncrease | packages/agent/src/uuid.ts:15-28 | on any clock, stalled or going back, through counter rollover, timestamp and counter only grow |
| Uuids.StampsFollowClock | packages/agent/src/uuid.ts:15-28 | a timestamp runs ahead of the clock by less than the number of calls, so clocks below 2^48 minus that number keep timestamps in range |
| FallbackChains.PickEntry | packages/ai/src/retry-with-fallback.ts:114-122 | the earliest entry that is untried and not cooled down, or none if all untried ones are |
| FallbackChains.SoonestExpiry | packages/ai/src/retry-with-fallback.ts:126-132 | the least expiry among untried entries that have a cooldown |
| FallbackChains.WaitForCooldown | packages/ai/src/retry-with-fallback.ts:124-142 | sleeps if and only if no untried entry is eligible at the second clock reading and one will be within 30 s; after a sleep one is |
| FallbackChains.CallEntry | packages/ai/src/retry-with-fallback.ts:144-154 | a success or a fatal failure ends the run; any other failure cools the entry from the moment it failed |
| FallbackChains.CalledOnceAndNeverCooled | packages/ai/src/retry-with-fallback.ts:113-145 | no key is called twice in a run, and none during its cooldown |
| FallbackChains.LastCallCools | packages/ai/src/retry-with-fallback.ts:144-154 | a retryable failure cools its entry for the whole cooldown from the end of its call; no other end of a call cools anything but what others mark |
| FallbackChains.RoundsBounded | packages/ai/src/retry-with-fallback.ts:113-145 | one round for each call and one more for each wait come to at most two for each distinct key |
| FallbackChains.RunChain | packages/ai/src/retry-with-fallback.ts:99-158 | terminates; always calls the earliest eligible entry at the time it is free, or after one wait when none was; takes at most two rounds per distinct key; no time passes but in calls and waits; with a clock that stands still in a round it gives up only when every untried entry is cooled for 30 s |
| FallbackChains.Cooldowns.WithFallbackChain | packages/ai/src/retry-with-fallback.ts:99-158 | the same on the module's cooldown map; an empty chain is an error and changes nothing |
| FallbackChains.Cooldowns.MarkEntryCooldown | packages/ai/src/retry-with-fallback.ts:90-92 | an outside mark is in force for exactly its duration from now on, and touches no other entry |
| ClientCaches.RecentIsByLastUse | packages/ai/src/utils/client-cache.ts:26-46 | the recency list is ordered by the last use in the history |
| ClientCaches.UseKey | packages/ai/src/utils/client-cache.ts:32-46 | a hit moved to the end, or a miss with one eviction, is again the list of most recently used keys |
| ClientCaches.Use | packages/ai/src/utils/client-cache.ts:29-48 | the map keeps exactly the listed keys, each with the client last built for it |
| ClientCaches.ClientCache.GetOrCreate | packages/ai/src/utils/client-cache.ts:29-48 | a client is built if and only if the key is not among the maxSize most recently used; otherwise the last built one is returned |
| ClientCaches.SmallerIsIncluded | packages/ai/src/utils/client-cache.ts:26-56 | on the same run a smaller cache holds a subset of a larger one |
| ClientCaches.LargerHitsMore | packages/ai/src/utils/client-cache.ts:26-56 | so on every run the larger one hits at least as often |
| ClientCaches.CountHits | packages/ai/src/utils/client-cache.ts:29-48 | a run hits exactly where the key is among the most recently used of the run so far |
| Proxies.StepSame | packages/agent/src/proxy.ts:355-520 | one event at any two times has the same outcome and leaves messages that agree up to open arguments |
| Proxies.ClockIndependent | packages/agent/src/proxy.ts:461-469 | for every event sequence and any two clocks all outcomes agree, and so does the finalized message |
| Proxies.CallIsExact | packages/agent/src/proxy.ts:427-499 | whatever is interleaved and whatever the clock, a call ends with the parse of all its deltas and no streaming fields, and so it stands in the message |
| Proxies.TextIsExact | packages/agent/src/proxy.ts:363-393 | whatever is interleaved and whatever the clock, a text block ends with the concatenation of all its deltas, and so it stands in the message with the signature sent |
| Proxies.ThinkingIsExact | packages/agent/src/proxy.ts:395-425 | so does a thinking block |
| Proxies.EndedBlockStays | packages/agent/src/proxy.ts:355-520 | a block that is not an open call keeps its content whatever happens at other indices, also at the terminal event |
| Proxies.CallOverflows | packages/agent/src/proxy.ts:438-460 | a delta fails the stream if and only if the arguments received with it exceed the limit |
| Proxies.ArgumentsAreRecent | packages/agent/src/proxy.ts:461-469 | the arguments of an open call are the parse of a prefix of its deltas, and every later delta came within the throttle time of that parse |
| Proxies.MisplacedThrows | packages/agent/src/proxy.ts:367-499 | an event changes nothing and throws exactly when it needs a block of its kind that is not there; the end of such a call is passed over in silence |
| Proxies.TerminalIsFinal | packages/agent/src/proxy.ts:340-350 | after any terminal event no block carries streaming fields, and the message has the reason, usage and error sent |
| Proxies.Partial.FinalizeOpenToolCalls | packages/agent/src/proxy.ts:340-350 | every call becomes final with its exact arguments, other blocks stay |
| Proxies.Partial.ProcessToolcallDelta | packages/agent/src/proxy.ts:438-478 | the throttled step on the mutable message is the specified one, with the overflow and the late-delta cases |
| Proxies.Partial.ProcessToolcallEnd | packages/agent/src/proxy.ts:480-499 | so is the end of a call |
| Proxies.Partial.ProcessProxyEvent | packages/agent/src/proxy.ts:355-520 | so is every other event |
| Proxies.LinesAreRead | packages/agent/src/proxy.ts:208-273 | if nothing follows `done`, reading lines pushes at most one terminal event, last, and after it the message is final |
| Proxies.OpenAfterLines | packages/agent/src/proxy.ts:208-273 | while nothing fails, the calls carrying streaming fields are exactly those the events leave open; after a failure there are none |
| Proxies.CallAfterDoneStaysOpen | packages/agent/src/proxy.ts:247-258 | a call started after `done` keeps its streaming fields when the connection closes |
| Proxies.ReadLines | packages/agent/src/proxy.ts:208-273 | the read loop on the mutable message does what the lines say one by one |
| Proxies.ReadStream | packages/agent/src/proxy.ts:206-303 | what is pushed is what each line comes to, and one failure in exactly the cases where the reading ends without a terminal event, by an exception, a break or an abort; the consumer always gets a terminal event; if nothing follows `done` it is the last, exactly one unless the body breaks after it, and the message is final; in general the message is final if and only if reading failed or no index is left open |
| MessageQueues.PendingMessageQueue.Drain | packages/agent/src/agent.ts:177-189 | all priority messages, then all or one of the regular ones |
| MessageQueues.PendingMessageQueue.DrainAll | packages/agent/src/agent.ts:192-197 | everything, priority messages first |
| MessageQueues.Play | packages/agent/src/agent.ts:150-197 | over every run each drain yields a batch, nothing is lost, repeated or reordered, and no priority message outlives a drain |

## Left out

- Promises, timers, `AbortSignal` and environment switches are nondeterministic steps, oracle functions and boolean parameters; a listener's wall-clock budget is not modelled.
- ToolBatches.EmitResult: listeners of result messages are assumed not to throw; every other listener may.
- ToolBatches.ExecuteToolCalls: whether listeners can throw and the run can be aborted are flags, and when they do is nondeterministic. Call ids within a batch are assumed distinct; duplicate ids are not modelled.
- ToolBatches.LateUpdates: a late update may be of any call that has started, also of one that consumed a speculation, whose late updates the source drops; of the tools an earlier batch left running the ids are assumed to differ from those of the current batch.
- ToolBatches.Await: the batch is a value passed from step to step, so aliasing of the executor's local arrays is not captured.
- Speculations.SpeculationController.Take: arguments are compared as their serialized text; arguments that cannot be serialized, which all compare equal in the source, are not modelled.
- Speculations.SpeculationController.RunParallelCall: a call is assumed to be prepared, executed and finalized the same whether it runs early or late; what tools, hooks, rewrites, hints and validation do are uninterpreted functions, one set for each stream attempt. A rewrite keeps id and name of the call, as its interface demands.
- AgentRuns.GatherWorks: the takes of a batch come in the order of its calls, as they do in the source, where each pipeline takes before its first await; but they come before the start events instead of right after them. The works of the calls are fixed by then; when their events come out is the batch's.
- AgentRuns.RunLoop: what comes from outside (answers, queues, replaced contexts, the stop hook, the signal between batches) is a function of the attempt or turn; during a batch the signal may be aborted at any await. Messages from outside are assumed not to carry the guard-abort mark; the diagnostics, the swap of tools, model and reasoning level between turns are not shown.
- StreamResponses.StreamAssistantResponse: context conversion, API keys and stream construction are one step that may throw; when the guards fire is nondeterministic (the overthink guard's own decision is OverthinkTrackers).
- StdinBuffers.StdinBuffer.Process: chunks are text; the decoding of byte buffers, and the conversion of a single byte above 127 to an ESC-prefixed character, are not shown.
- Sixels.ChannelToPct: color channels are real numbers; rounding of floating point is not modelled. The indices of pixels need not be palette entries.
- PetSizes.PetSize: sizes are finite real numbers; the pet's geometry, shading, palette search and buffer reuse are not part of this model.
- VirtualizedContainers.VirtualizedContainer.Render: rendered arrays are assumed not to change once returned, and `out` is what a child renders to after errors are turned into a line.
- OverthinkTrackers.OverthinkTracker.GetInterruptInfo: the texts of reminders and display lines are not shown.
- Uuids.Generator.Uuidv7: the clock is a number of milliseconds not before 1970; bit operations on separate fields are written as sums.
- FallbackChains.RunChain: other chains may mark cooldowns while a call runs but not while this chain sleeps; which errors are retryable is a flag of the outcome.
- ClientCaches.ClientCache.GetOrCreate: a key is the serialized configuration, and a factory neither uses the cache nor returns `undefined`.
- Proxies.ReadStream: connecting, HTTP errors, UTF-8 decoding and the line buffer are left out; a line is an event, oversized or malformed. The parser is an uninterpreted function.
- MessageQueues.PendingMessageQueue.Drain: messages are numbers; a falsy message at the head is not modelled.
- `keys.ts`, keybindings, autocomplete, the CLI, configuration, registries, catalogs, cost scripts, kill ring, undo stack and thinking-level clamp would only add tables or easy members.
