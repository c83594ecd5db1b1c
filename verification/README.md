# Rose end-of-data orchestrator, modelled in Dafny

This project models the end-of-data (EOD) stage of Hyperscan's Rose engine
(`src/rose/eod.c`). It covers what runs once no more input will arrive:

- the unconditional EOD program;
- the EOD accept check of the active engines that can accept at end of data,
  which in streaming mode decompresses each engine's state first;
- the first run of the report-delivery ("iterator") program;
- the clearing of the role and active-leaf bitmaps;
- the end-anchored literal scan over the trailing region of the buffer,
  followed by the firing of the matches it delayed;
- the last-byte history flush;
- the second report-delivery run;
- the finalisation of the suffix engines left active.

The model also covers the two entry points. In streaming mode (`roseEodExec`)
the entry bails out beyond a finite width bound, and otherwise resets the
match context. In block mode (`roseBlockEodExec`) it first prepares the
history of the block.

Every operation is a pure function. The collaborators, which are the program
interpreter, the literal matcher, delayed-match clean-up, history flushing,
the engine accept check and engine queue execution, are fields of an
`Oracles` value. They are arbitrary functions of their arguments, so every
property holds whatever they answer for those arguments. The engine accept
check is told where it is asked (`CheckSite`): at the check of engines
already active, or after the suffix check ran the engine's queue, since the
engine's state, and so its answer, can differ between the two. An evaluation yields a trace of `Event`s. Each event is
a step together with whether its collaborator asked to halt. Each step has a
rank, its position in the fixed pipeline. The proofs are stated over these
traces:

- **halt protocol**: a halt is always the last event, and the driver answers
  Halt exactly when its last step halted;
- **pipeline order**: ranks never decrease;
- **completeness**: when a run carries on to the end, every step the
  configuration asks for ran once, in pipeline order, and each per-engine
  loop visited every engine it was due to, in ascending order;
- **positional facts**: where the clearing, the scan, the flush and the second
  report-delivery run sit relative to each other.

Files:

- `wrappers.dfy`: `Option`.
- `rose_types.dfy`: bytes, the control result, buffer shapes, the EOD part of
  the engine header, the bitmaps and the oracles.
- `multibit.dfy`: ascending bitmap enumeration, both the plain iteration and
  the sparse one over a compiled mask.
- `trace.dfy`: steps, ranks, stages, and the halt-protocol and ordering
  predicates with their append lemmas.
- `context.dfy`: the match context, the scratch workspace and `initContext`.
- `eod.dfy`: every step, the layered driver (`roseEodExec_i`) and both entry
  points.
- `loop_properties.dfy`: the engine-check and suffix loops.
- `driver_properties.dfy`: the early returns of whole runs.
- `driver_complete.dfy`: the other direction, namely that when a run carries
  on to the end every configured step ran, once and in order, and the two
  per-engine loops visited every engine they were due to.
- `anchored_properties.dfy`, `driver_anchored.dfy`: the anchored phase, first
  alone and then lifted to whole runs.
- `entry_properties.dfy`: the entry points.

## Model

| member | source | states |
|---|---|---|
| Multibit.Members | src/rose/eod.c:221-222 | the plain iteration yields exactly the members of the bitmap below the count, each once, in strictly ascending order |
| Multibit.SparseMembers | src/rose/eod.c:171-179 | the sparse iteration yields a queue exactly when it is in the compiled EOD mask, is active and is below the active-array count, in ascending order |
| Context.Wrap64 | src/rose/eod.c:41-43 | unsigned 64-bit arithmetic: the value is below 2^64, equal to its argument when that is in range, and one lap up when the argument is negative by less than 2^64 |
| Context.InitContext | src/rose/eod.c:35-60 | after the reset, every watermark sits at the EOD offset, no delayed literal is pending, no match has been reported, there is no anchored location or row, the stored groups are loaded, the catch-up queue, anchored log and active-queue set are empty, and the input description is kept |
| Context.LitOffsetAdjustLocatesHistory | src/rose/eod.c:41-43 | with the history preceding the live buffer, history byte `i` reports stream end offset `bufOffset - hlen + i + 1`, never past the live buffer's start |
| Context.LitOffsetAdjust | src/rose/eod.c:41-43 | the literal offset adjustment is a 64-bit quantity, computed with the source's unsigned wrap-around |
| Context.InitContextForgetsPrevious | src/rose/eod.c:35-60 | the reset depends only on the input description, the EOD offset and the stored groups: whatever an earlier scan left in the workspace is forgotten |
| Eod.AnchoredStart | src/rose/eod.c:89-91 | the scan start never passes the buffer length, leaves at most the region size to scan, and is 0 unless exactly the region size is left |
| Eod.RunEodProgram | src/rose/eod.c:255-274 | without an EOD program nothing runs and matching continues; otherwise exactly the one program step runs, the stage halts exactly when the interpreter answered terminate, and the bitmaps are the interpreter's |
| Eod.RunIterator | src/rose/eod.c:104-120 | without an iterator program nothing runs and matching continues; otherwise exactly the one run of that program happens, tagged with the pass asked for, halting exactly when the interpreter answered terminate, with the interpreter's bitmaps |
| Eod.CheckNfaEod | src/rose/eod.c:151-203 | the engine check leaves both bitmaps untouched, never halts except at its last event, and only performs engine-check steps |
| Eod.RunMatcher | src/rose/eod.c:62-102 | a buffer shorter than the matcher's minimum width is not scanned and matching continues; otherwise the literal matcher is handed the selected buffer (the block, or the history in streaming mode), starting so that exactly the trailing `min(len, regionSize)` bytes are scanned, with the context's groups and the bitmaps given; the firing of delayed matches then runs on what the scan left, and its answer is both the stage's halt (carried by its event) and the bitmaps left |
| Eod.NfaVisit | src/rose/eod.c:189-199 | one engine's turn in the accept check ends with its check, carrying the halt flag it was given, and is preceded by exactly one decompression of that engine's state in streaming mode and by nothing in block mode |
| Eod.NfaLoop | src/rose/eod.c:177-200 | the accept-check loop leaves the bitmaps untouched, only performs engine-check steps, and halts only at its last event |
| Eod.ResetMarkers | src/rose/eod.c:307-309 | after the clearing both the role bitmap and the active-leaf array are empty; it is a single step that never halts |
| Eod.FlushAfterMatcher | src/rose/eod.c:205-212 | the flush after the anchored scan is exactly one step, the history flush at the EOD offset; it never halts, and the bitmaps are those the flush hands back |
| Eod.SuffixVisit | src/rose/eod.c:236-251 | one engine's turn in the suffix check first runs its queue to the given end; only when the engine is still alive does its accept check follow, carrying the halt flag it was given |
| Eod.SuffixLoop | src/rose/eod.c:221-252 | the suffix loop leaves the bitmaps untouched, only performs suffix-phase steps, and halts only at its last event |
| Eod.CheckEodSuffixes | src/rose/eod.c:214-253 | the suffix check leaves the bitmaps untouched, only performs suffix-phase steps, and halts only at its last event |
| Eod.EodExecI | src/rose/eod.c:276-325 | every run keeps the halt protocol (a halt is the last event, and the driver answers Halt exactly when its last step halted) and the pipeline order; without an anchored matcher nothing after the first report-delivery run ever happens |
| Eod.AfterEodProgramWellFormed | src/rose/eod.c:289-324 | everything after the unconditional program keeps the halt protocol and runs from the engine check on, in pipeline order; without an anchored matcher it stops at the first report-delivery run |
| Eod.DeliverReportsWellFormed | src/rose/eod.c:299-324 | everything from the first report-delivery run on keeps the halt protocol and the pipeline order; without an anchored matcher only that run happens |
| Eod.AnchoredPhaseWellFormed | src/rose/eod.c:305-324 | the anchored phase, from the clearing to the suffix check, keeps the halt protocol and the pipeline order |
| Eod.ScanAndFinishWellFormed | src/rose/eod.c:311-323 | from the anchored scan on, the halt protocol and the pipeline order hold |
| Eod.FinishAfterFlushWellFormed | src/rose/eod.c:318-323 | the second report-delivery run and the suffix check keep the halt protocol and the pipeline order |
| Eod.StreamEodExec | src/rose/eod.c:327-350 | beyond a finite width bound the streaming entry hands back the workspace and bitmaps untouched, with no step and Continue; otherwise the context is reset at the EOD offset (every watermark there, the stored groups loaded, literal offsets adjusted to the history, the input description kept) and the steps keep the halt protocol and pipeline order |
| Eod.BlockEodExec | src/rose/eod.c:352-373 | block mode opens with the history preparation over the whole block, never repeated, records the block length as the last end offset with the rest of the workspace unchanged, and its steps keep the halt protocol and pipeline order |
| LoopProperties.NfaVisitFacts | src/rose/eod.c:186-199 | one engine's turn checks that engine alone, records the engine's own answer, decompresses with the given key just before the check in streaming mode and never in block mode, and runs no other step |
| LoopProperties.SuffixVisitFacts | src/rose/eod.c:236-251 | one engine's turn in the suffix check runs that engine alone to the given end, queries it right after exactly when the run left it alive, records its answer, and runs no other step |
| LoopProperties.ActiveCheckVisitsAscendingPrefix | src/rose/eod.c:168-203 | the engines checked are, in order, a prefix of the active EOD-capable queues in ascending order, all of them when nobody halted; each halt flag is that engine's own answer, and the bitmaps are unchanged |
| LoopProperties.NfaLoopVisitsPrefix | src/rose/eod.c:177-200 | the check loop visits a prefix of its queue list, the whole list when it did not halt, and records each engine's answer |
| LoopProperties.NfaLoopExpandsBeforeCheck | src/rose/eod.c:189-192 | in streaming mode every accept check comes right after the decompression of that engine's state; in block mode no state is ever decompressed |
| LoopProperties.DecompressKeyUse | src/rose/eod.c:160-166 | the decompression key is the last history byte, or 0 for an empty history, and block mode never decompresses |
| LoopProperties.SuffixLoopVisitsPrefix | src/rose/eod.c:221-252 | the suffix loop runs a prefix of its queue list in order, the whole list when it did not halt |
| LoopProperties.SuffixLoopChecksOnlyAlive | src/rose/eod.c:236-251 | each queue runs to the given end; an engine's accept state is queried exactly when that run left it alive, right after it, and the halt flag is the engine's answer |
| LoopProperties.SuffixCheckVisitsActive | src/rose/eod.c:214-253 | the suffix check runs the active engines in ascending order up to the first halt, each to the end of the live buffer, queries only the survivors, and leaves the bitmaps unchanged |
| DriverProperties.EodProgramHaltStopsAll | src/rose/eod.c:284-287 | when the unconditional program halts, it is the only step and the driver halts |
| DriverProperties.NoEodAcceptsReturnsEarly | src/rose/eod.c:294-297 | with neither an iterator program nor an anchored matcher only the unconditional program and the engine check run, and the bitmaps are those the unconditional program left |
| DriverComplete.IteratorRan | src/rose/eod.c:104-120 | a report-delivery run is exactly the one configured program step, or nothing when there is no program, and runs no per-engine step |
| DriverComplete.MatcherRan | src/rose/eod.c:62-102 | the anchored matcher's stage is exactly the scan and the firing of delayed matches, or nothing when the buffer is shorter than the minimum width |
| DriverComplete.CheckNfaEodComplete | src/rose/eod.c:151-203 | the engine check visits a prefix of the active EOD-capable engines in ascending order, all of them when it carried on, and runs nothing else |
| DriverComplete.FinishAfterFlushComplete | src/rose/eod.c:318-323 | when it carried on, the second report-delivery run (if configured) happened and then every engine active after it was run to the end, in ascending order; when that run carried on, it handed its bitmaps to the suffix check, and the stage leaves exactly those bitmaps |
| DriverComplete.ScanAndFinishComplete | src/rose/eod.c:311-323 | when it carried on, the scan (unless the input is too short) with its delayed matches, the flush, the second report-delivery run and every active suffix engine all ran, in that order; when the scan carried on, the rest of the stage is the second report-delivery run and suffix check run on the bitmaps the flush made of the scan's bitmaps |
| DriverComplete.AnchoredPhaseComplete | src/rose/eod.c:305-323 | when it carried on, the clearing opened the anchored phase and every later step of it ran, in order |
| DriverComplete.DeliverReportsComplete | src/rose/eod.c:299-324 | when it carried on, the first report-delivery run (if configured) and, with an anchored matcher, the whole anchored phase ran, in order |
| DriverComplete.AfterEodProgramComplete | src/rose/eod.c:289-324 | when it carried on, every engine due was checked in ascending order and every later configured step ran, once and in order |
| DriverComplete.EveryConfiguredStepRuns | src/rose/eod.c:284-324 | when the driver answers Continue, the unconditional program, the check of every active EOD-capable engine, the first report-delivery run and, with an anchored matcher, the clearing, the scan unless the input is too short, the firing of delayed matches, the flush, the second report-delivery run and every then-active suffix engine all ran, once each and in that order |
| DriverComplete.FinishAfterFlushFollowsPlan | src/rose/eod.c:318-323 | in every run of the last two steps, halted or not, the once-per-evaluation steps are a prefix of the second report-delivery run, and the suffix engines run are a prefix of those active, in ascending order |
| DriverComplete.ScanAndFinishFollowsPlan | src/rose/eod.c:311-323 | from the scan on, in every run, the once-per-evaluation steps are a prefix of scan, flush and second report-delivery run, and the suffix engines run are a prefix of those active |
| DriverComplete.AnchoredPhaseFollowsPlan | src/rose/eod.c:305-323 | in every run of the anchored phase the once-per-evaluation steps are a prefix of its plan, starting with the clearing, and the suffix engines run are a prefix of those active |
| DriverComplete.DeliverReportsFollowsPlan | src/rose/eod.c:299-324 | from the first report-delivery run on, in every run, the once-per-evaluation steps are a prefix of the plan and the suffix engines run are a prefix of those due |
| DriverComplete.AfterEodProgramFollowsPlan | src/rose/eod.c:289-324 | after the unconditional program, in every run, the engines checked are a prefix of those due, all of them once a later step ran, and the later steps and suffix engines are prefixes of their plans |
| DriverComplete.EodProgramHandsOver | src/rose/eod.c:284-291 | when the unconditional program carried on, the rest of the run is the engine check and everything after it, run on the bitmaps the program left |
| DriverComplete.AfterEodProgramHandsOver | src/rose/eod.c:289-302 | when the engine check carried on and there is something to deliver, the rest is the first report-delivery run on the same bitmaps the check was given, since the check changes none |
| DriverComplete.DeliverReportsHandsOver | src/rose/eod.c:299-311 | when the first report-delivery run carried on and an anchored matcher is configured, the rest is the anchored phase given the bitmaps that run left |
| DriverComplete.EveryRunFollowsPlan | src/rose/eod.c:284-324 | every run, halted or not, follows the plan as far as it got: the once-per-evaluation steps are a prefix of the configured plan; the engines checked are a prefix of those due, and all of them once any step after the engine check ran; the suffix engines run are a prefix of those active at the end |
| AnchoredProperties.AnchoredPhaseScansClearedMarkers | src/rose/eod.c:305-324 | the anchored phase is the clearing followed by the scan, the flush, the second report-delivery run and the suffix check run on empty role and active bitmaps, and it leaves their bitmaps and answer |
| AnchoredProperties.AnchoredPhaseIgnoresEarlierMarkers | src/rose/eod.c:305-324 | the anchored phase, from the clearing to the suffix check, gives the same steps, answers and bitmaps whatever bitmaps the earlier phases left |
| AnchoredProperties.AnchoredPhaseOpensWithClear | src/rose/eod.c:305-311 | the anchored phase starts with the clearing of both bitmaps, and everything after it belongs to the scan or later phases |
| AnchoredProperties.AnchoredPhaseSecondRun | src/rose/eod.c:311-321 | within the anchored phase the second report-delivery run follows the flush, which follows either the scan's delayed matches fired without a halt or, for a too-short input, the clearing |
| AnchoredProperties.AnchoredPhaseSkip | src/rose/eod.c:81-87 | within the anchored phase a too-short input is never scanned, and the flush and the second report-delivery run still follow the clearing |
| DriverAnchored.MarkersClearedBetweenIteratorAndScan | src/rose/eod.c:299-311 | the bitmaps are cleared only with an anchored matcher, after the early phases carried on, right after the first report-delivery run when there is one, and before any scan step; with an anchored matcher and no early halt they are cleared, and every literal scan has a clearing before it |
| DriverAnchored.AnchoredStepsSeeClearedMarkers | src/rose/eod.c:299-324 | in a whole run with an anchored matcher, once the bitmaps were cleared, the rest of the run (its steps, its answer and the bitmaps left) is exactly the anchored phase run on emptied bitmaps; right after the clearing event come the scan and everything after it, run on the empty role and active bitmaps |
| DriverAnchored.SecondIteratorAfterScanAndFlush | src/rose/eod.c:311-321 | in a whole run the second report-delivery run happens only with an anchored matcher, right after the flush, which follows the scan whose delayed matches did not halt, or the clearing when the scan was skipped |
| DriverAnchored.ShortInputSkipsScanOnly | src/rose/eod.c:81-87 | in a whole run a buffer shorter than the minimum width is never scanned, yet the flush and the second report-delivery run still follow the clearing |
| DriverAnchored.LateEventMeansNoEarlyHalt | src/rose/eod.c:284-302 | a run that reached the clearing or any later phase did not halt in the first three phases |
| EntryProperties.StreamBeyondBoundIsNoOp | src/rose/eod.c:337-342 | beyond a finite width bound the streaming entry returns the workspace and bitmaps untouched, runs no step, continues matching and consults no collaborator |
| EntryProperties.StreamEodRunsDriver | src/rose/eod.c:344-349 | within the bound the streaming entry's steps, bitmaps and answer are exactly the shared driver's over the history at the EOD offset with the freshly reset context; when it carries on, every configured step ran, once and in order |
| EntryProperties.BlockEodRunsDriver | src/rose/eod.c:359-373 | block mode's steps are the history preparation followed by exactly the shared driver's steps over the block, on the bitmaps the preparation left, with the driver's bitmaps and answer; when it carries on, every configured step ran after the preparation, once and in order |

## Left out

- The internals of the collaborators are not modelled: the Rose program
  interpreter, `hwlmExec`, `cleanUpDelayed`, `roseFlushLastByteHistory`,
  `nfaExpandState`, `nfaCheckFinalState`, `pushQueueNoMerge` with
  `nfaQueueExecRose`, and `loadGroups`. They are oracle functions, so no
  property depends on what they do.
- Changes the collaborators make to the match context are not modelled.
  The literal matcher is handed the groups the context holds when the driver
  starts. A program that squashed groups earlier in the same evaluation is
  not reflected.
- Multibit and fatbit internals are not modelled. The bitmaps are sets of
  indices, and iteration is ascending enumeration below the count.
- Report deduplication is not modelled. Clearing the bitmaps keeps roles from
  being triggered again by the scan, but whether a report can reach the user
  twice depends on the interpreter, which is not part of this model.
- The user callbacks kept in the context (`cb`, `cb_som`) and their adaptors
  `eodNfaCallback` and `eodNfaSomCallback` are not modelled, nor the scratch
  magic-number check. Reports leave through the oracles.
- State-blob offset arithmetic is not modelled (`getRoleState`,
  `getActiveLeafArray`, full and stream state offsets), nor debug printing.
- The source's assertions are preconditions: `requiresEodCheck`, the width
  bound in block mode, no pending delayed literal before the EOD program, a
  non-empty buffer for the anchored matcher, and a non-zero region size (the
  `Width` subtype). The assertions that matching has not been stopped, that
  every checked engine accepts at EOD, and that every suffix engine was
  triggered during this scan are left out: they describe other subsystems'
  state.
- In streaming mode the live buffer is absent at end of data, so its length
  (the end location pushed onto suffix queues) is 0. The assertions that
  exactly one of the live buffer and the history is present become the two
  `Buffer` shapes.
- The literal matcher's own answer is dropped, as `roseEodRunMatcher`
  discards what `hwlmExec` returns. A terminate request made while the scan
  runs reaches the driver only through the answer of the delayed-match
  firing that follows it.
- The source's `roseCheckEodSuffixes` returns nothing. The model hands its
  halt on as the driver's control result, which is harmless because it is
  the last step.
- Eod.CheckNfaEod: its own contract states only that the check is confined to
  its phase and leaves the bitmaps alone. Which engines it visits, in which
  order and with which key is stated by the LoopProperties lemmas.
- Eod.NfaLoop: its own contract states only the phase, the halt protocol and
  that the bitmaps are passed through. The queues visited, their order and
  the answers recorded are stated by `LoopProperties.NfaLoopVisitsPrefix`.
- Eod.SuffixLoop: its own contract states only the phase, the halt protocol
  and that the bitmaps are passed through. The queues run, their order and
  the alive discipline are stated by `LoopProperties.SuffixLoopVisitsPrefix`
  and `LoopProperties.SuffixLoopChecksOnlyAlive`.
- Eod.CheckEodSuffixes: its own contract states only the phase, the halt
  protocol and that the bitmaps are passed through. The active queues run in
  ascending order are stated by `LoopProperties.SuffixCheckVisitsActive`.
- Eod.EodExecI: its own contract states the halt direction only (nothing
  follows a halt). That every configured step runs when nothing halted is
  stated by `DriverComplete.EveryConfiguredStepRuns`. That a halted run
  ran a prefix of the plan is stated by `DriverComplete.EveryRunFollowsPlan`.
  That the steps after the clearing work on the emptied bitmaps is stated
  by `DriverAnchored.AnchoredStepsSeeClearedMarkers`; that each step hands
  its bitmaps to the next is stated by the `HandsOver` lemmas and the
  hand-off clauses of `DriverComplete.ScanAndFinishComplete` and
  `DriverComplete.FinishAfterFlushComplete`.
- Eod.StreamEodExec: its own contract states the reset and the halt
  direction only. That the steps are the driver's, all of them when nothing
  halted, is stated by `EntryProperties.StreamEodRunsDriver`.
- Eod.BlockEodExec: its own contract states the preparation and the halt
  direction only. That the driver's steps follow it, all of them when
  nothing halted, is stated by `EntryProperties.BlockEodRunsDriver`.
- The collaborators answer as functions of their arguments only. The
  interpreter's answer depends on the program, the offset and the bitmaps,
  so two report-delivery runs on the same bitmaps answer alike, although in
  the source the interpreter also reads match-context state that the model
  does not carry. The accept check's answer depends on the site, the engine
  and the offset, not on the engine's decompressed or queue-run state, and a
  queue run's answer depends on the engine and the end location only.
