# Bifrost: a verified model of the virtual log

This project models Bifrost, the replicated-log layer of Restate, and proves what its parts promise together. A virtual log is one address space of LSNs built from a chain of segments, each backed by a loglet. Appenders write to the newest segment, sealers close it, chain writers extend or trim the chain by batched read-modify-writes of versioned metadata, and readers follow the chain through an eight-state machine while all of this happens. A second, smaller part models the librdkafka properties text of the command line.

## How it is built

- `Addresses`, `Entries`, `Chains`, `Loglets` hold the data: LSN and offset arithmetic with its overflow panics, log entries and gaps, the chain with its edits, and the loglet contract (ordered log, committed, released and trimmed prefixes, seal, and the first sealed answer that fixes the tail).
- `VirtualLog` ties the chain to the loglets: segments lie end to end, every tail in any chain version is the end of a fixed segment, and whatever lies before the head is trimmed. Commands are accepted only with evidence (a segment that ended, addresses that are trimmed), and evidence is stable.
- `ChainCommands` and `ChainWriter` are the commands and the writer that coalesces them; `Admin` seals, extends and finds the tail; `Trimming` is the trim pipeline; `Appenders` and `BackgroundAppenders` append.
- `ReadStreams` is one turn of the reader as a function of what it sees; `PollNext` is the object whose loop updates its fields in place, proved equal to it. `Readers`, `ReaderTraces` and `ReaderLimits` prove what every turn keeps and what a whole trace says. `ReaderFindings` gives concrete runs where the reader does not do what its interface suggests.
- `System` puts everything into one step system with any interleaving and proves the statements about whole runs.
- `Watchdogs` counts preference tokens and runs improvement rounds. `Properties` is the text format.

Calls that await other components take the awaited answers as arguments: any sequence of answers that the contracts allow, given at any later moment. `Moment`, `Scene` and `Timeline` say how the log may have moved in between. A reader's loglet lookup reads the chain when it is made and answers later, so its answer may come from any version since then, older or newer than the one its turn sees (`LegalLookup`, `LookupMayBeStale`). A result `None` of such a call means that it has not returned yet.

## What the code does that its text does not say

- A seal marker keeps the index of the segment it seals, so one index can see a seal and then an extension that both change the chain. What holds is stronger ordering: reconfigurations strictly rise by index, a seal before an extension (`ReconfigurationsRise`, `SealThenExtendBothChange`).
- The read pointer passes over trim gaps only. After any other gap of several LSNs it stands inside the gap; the delivered stretches tile the log exactly when there is no such gap (`TilesIffNoneWide`, `WideGapBreaksTiling`).
- The end LSN is compared with the read pointer only. When the inner stream is ahead of the read pointer, because the loglet dropped filtered records by itself or because a gap of several LSNs was delivered, the stream can deliver an entry past its end LSN. It can exactly when everything from the inner position through the end LSN is released and unmatched and the next address is released or trimmed (`PastEndPossibleIff`, `PastEndIff`, `StreamOvershootsEnd`, `WideGapOvershootsEnd`), and then the record at the end LSN does not match the filter or was reported lost (`PastEndIsExplained`, `NothingPastAWantedEnd`). Data-loss gaps are part of the entry format; no loglet provider reports one yet.
- A stream can end before its end LSN on three routes (`FinishedIff`): the inner stream reaches the tail of a sealed segment ahead of the read pointer, past records the loglet dropped (`StreamEndsEarly`) or past a wide gap (`WideGapEndsStream`), or it ends after a read error, in any segment and with records ahead (`ReadErrorEndsStream`). Without an error the record at the read pointer then does not match or was reported lost, so an unfiltered stream with no loss and no error never ends early (`NeverEndsBeforeAWantedRecord`, `ReadersEndInOrder`).
- A stream that starts more than a 32-bit offset past the base of an open segment panics (`FarStartPanics`). After a shutdown error the finished metadata watch is not replaced until a newer version is seen, so a turn that polls it again panics, at any of four places (`RepollAfterShutdownPanics`). There is no other panic (`ReadersPanicIff`).
- The trim point is the largest trimmed LSN while something of the head segment is trimmed, and INVALID otherwise (`TrimPointIsExact`). It moves back exactly on a prefix trim of a log whose head has been trimmed, when the segment that holds the successor of the point has nothing trimmed; nothing else moves it back (`CommandMovesPointBackIff`, `EventsNeverMovePointBack`, `TrimPointCanMoveBack`). Trimming panics at a segment that starts past the largest 32-bit offset (`Trim`).
- A metadata write whose answer is lost may have taken effect. The batch then fails or is tried again on its own result, where an extension is refused for the index it has itself replaced (`ReadModifyWrite`, `TriedTwice`).
- `parse_librdkafka_properties` also ignores lines that start with `;` and drops trailing whitespace of values; its description mentions neither. A newline inside a redacted key escapes the comment (`RedactedNewlineLeaks`).

## Model

| member | source | states |
|---|---|---|
| Addresses.TranslationsAreInverse | crates/bifrost/src/types.rs:30-69 | `offset_by` and `into_offset` are inverse to each other and panic exactly outside each other's image |
| Addresses.TranslationsAreMonotone | crates/bifrost/src/types.rs:30-45 | translation keeps strict order, in both directions |
| Addresses.TrimOffsetIsExact | crates/bifrost/src/loglet_wrapper.rs:211-219 | wrapper trim panics exactly when the base lies past the request or the 32-bit ceiling, never trims past the request, and is exact up to the ceiling |
| Entries.WithBaseLsnShifts | crates/bifrost/src/record.rs:44-62 | re-basing commutes with the covered interval, the next sequence number and the width of a gap, and fails only on overflow |
| Entries.ReadPointerLagsIffWide | crates/bifrost/src/read_stream.rs:214-222 | the read pointer stays behind the next sequence number exactly after a gap of several LSNs that is not a trim gap |
| Chains.FindSegmentIsTheHolder | crates/types/src/logs/metadata.rs:929-962 | the lookup gives the one segment whose interval holds the LSN, and `Trim` exactly below the head |
| Chains.AppendKeepsShape | crates/types/src/logs/builder.rs:218-290 | appending keeps order and decodable markers, opens the next index at the given base and touches no earlier entry |
| Chains.SealKeepsShape | crates/types/src/logs/builder.rs:292-349 | sealing puts one marker with the index of the sealed segment; sealing again changes nothing and returns the recorded tail |
| Chains.TrimKeepsShape | crates/types/src/logs/builder.rs:185-211 | trimming keeps a non-empty suffix that starts with the segment holding the LSN |
| ChainCommands.EditKeepsShape | crates/bifrost/src/log_chain_writer.rs:330-386 | every command keeps the chain well formed and changes its stage only when it names the current index |
| ChainCommands.ReconfigurationsRise | crates/bifrost/src/log_chain_writer.rs:330-377 | over any run of commands each index is sealed at most once, extended at most once, and never sealed after it was extended |
| ChainCommands.SealThenExtendBothChange | crates/types/src/logs/builder.rs:292-349 | a seal and an extension of one index can both change the chain |
| ChainWriter.CoalescingIsSequential | crates/bifrost/src/log_chain_writer.rs:233-293 | any split of commands into batches gives the same chains and the same answers |
| ChainWriter.LogsAreIndependent | crates/bifrost/src/log_chain_writer.rs:313-386 | a batch does to each existing log exactly what that log's own commands do |
| ChainWriter.AnswersAreIndependent | crates/bifrost/src/log_chain_writer.rs:313-386 | a command of an existing log is answered by the chain that the log's own earlier commands made |
| ChainWriter.Register.OthersWrite | crates/core/src/metadata/metadata_client_wrapper.rs:134-145 | others may write any well-formed values in between, each with a new version |
| ChainWriter.Register.PutIf | crates/core/src/metadata/metadata_client_wrapper.rs:114-134 | a conditional write takes effect exactly if it reaches the store and the register still has the version it expects; with a fault its caller learns neither |
| ChainWriter.LogsBuilder.AddLog | crates/bifrost/src/log_chain_writer.rs:313-328 | adding an existing log succeeds and changes nothing; otherwise a fresh chain, unless its parameters do not decode |
| ChainWriter.LogsBuilder.ExtendLogChain | crates/bifrost/src/log_chain_writer.rs:330-353 | extends only the expected tail index, with the error of each other case |
| ChainWriter.LogsBuilder.SealLogChain | crates/bifrost/src/log_chain_writer.rs:355-377 | seals only the expected tail index and answers the authoritative tail |
| ChainWriter.LogsBuilder.TrimChainPrefix | crates/bifrost/src/log_chain_writer.rs:379-386 | trims including the trim point, ignoring unknown logs |
| ChainWriter.LogChainWriter.Receive | crates/bifrost/src/log_chain_writer.rs:226-231 | takes at most a full batch off the front of the queue |
| ChainWriter.LogChainWriter.Modify | crates/bifrost/src/log_chain_writer.rs:237-292 | running the batch leaves the chains and the staged results of applying its commands one by one, whatever was staged before |
| ChainWriter.LogChainWriter.OneTry | crates/core/src/metadata/metadata_client_wrapper.rs:109-217 | one try leaves a version of ours exactly if its node is up to date, nobody writes before the put and the put reaches the store; conflicts and faults are retried or fail |
| ChainWriter.LogChainWriter.ReadModifyWrite | crates/core/src/metadata/metadata_client_wrapper.rs:88-222 | with a lagging node, any writes of others and any faults: every version of ours is the batch applied to the version just before it; a success answers for the last one; a failure has left one exactly if a put found its version and its answer was lost; an undisturbed first try succeeds |
| ChainWriter.TriedTwice | crates/bifrost/src/log_chain_writer.rs:330-386 | a batch tried again on its own result: the extension is refused, seals and trims answer the same and change nothing |
| ChainWriter.LogChainWriter.ProcessBatch | crates/bifrost/src/log_chain_writer.rs:233-307 | completing always finds a staged result, answers are those of the commands on the version replaced, and a failed write fails every answering command; without lost answers it leaves the one version it is answered for, or none |
| ChainWriter.LogChainWriter.RunInner | crates/bifrost/src/log_chain_writer.rs:222-310 | over a whole run, batches take the queue in order; each is answered from the version it replaced or fails as a whole; our versions in the register are exactly those the batches wrote, in order, and without lost answers exactly those they are answered for |
| Loglets.HappensKeepsContract | crates/bifrost/src/loglet.rs:39-43 | every allowed loglet event keeps the contract and only grows the loglet, with a fixed tail after the first sealed answer |
| VirtualLog.EventKeepsCore | crates/bifrost/src/loglet.rs:100-152 | loglet events keep segments end to end, chain and loglets in agreement, and trims downward closed |
| VirtualLog.ApplyKeepsCore | crates/bifrost/src/log_chain_writer.rs:330-386 | a command backed by its evidence moves no segment and drops only trimmed ones |
| VirtualLog.ApplyAllKeepsCore | crates/bifrost/src/log_chain_writer.rs:233-293 | so does any batch, never moving the stage, tail index or head back |
| VirtualLog.HoldsIsUnique | crates/bifrost/src/types.rs:30-69 | an LSN belongs to one offset of one segment |
| VirtualLog.ChainFindsHolder | crates/types/src/logs/metadata.rs:929-962 | every chain version that covers a committed LSN finds the segment that holds it |
| PollNext.LogReadStream.TurnNow | crates/bifrost/src/read_stream.rs:267-652 | one pass of the loop body, field by field, is one turn of the state machine |
| PollNext.LogReadStream.Poll | crates/bifrost/src/read_stream.rs:256-654 | a whole call is turns until one returns |
| PollNext.LogReadStream.PollSubstream | crates/bifrost/src/loglet_wrapper.rs:293-316 | polling the substream stops at the known tail, re-bases entries and advances the pointer |
| Readers.StateTurnKeeps | crates/bifrost/src/read_stream.rs:301-652 | every state's turn keeps the stream's invariant, whatever it sees, stale lookups included |
| Readers.WorldGivesAnswer | crates/bifrost/src/bifrost.rs:624-636 | a lookup that read any version since it was made places the read pointer in a segment the node knows by now, at worst one it takes for open |
| Readers.StatePanicsIff | crates/bifrost/src/read_stream.rs:410-640 | a turn panics exactly when the stream starts too far past a base, or polls a metadata watch that has already reported shutdown, at one of four places |
| Readers.CreateTurnKeeps | crates/bifrost/src/loglet_wrapper.rs:95-115 | creating a substream panics exactly when the start is too far past the base, which can only be the stream's start |
| Readers.LookupPassesTrimmed | crates/bifrost/src/read_stream.rs:384-395 | everything below the head of a chain version has been trimmed in its loglet |
| ReaderTraces.StepKeepsStream | crates/bifrost/src/read_stream.rs:267-652 | every turn in every consistent world keeps the invariant and never moves the read pointer back |
| ReaderTraces.PanicsIff | crates/bifrost/src/read_stream.rs:267-652 | the next turn panics exactly for a start too far, or after shutdown when no newer version was seen and the watch is polled; before shutdown only at the start |
| ReaderTraces.CheckingOncePerVersionSuffices | crates/bifrost/src/read_stream.rs:380-395 | a turn that looks for a trim once per logs version is the turn of one that always looks |
| ReaderTraces.ReconfigurationIsVisible | crates/bifrost/src/read_stream.rs:532-575 | `AwaitingReconfiguration` never gets `NoChange` from the chain |
| ReaderTraces.StepKeepsTrace | crates/bifrost/src/read_stream.rs:483-530 | every entry handed out is true: committed matching records, trimmed addresses in trim gaps, unmatched records in filtered gaps; what is skipped in silence does not match or was reported lost |
| ReaderTraces.TilesIffNoneWide | crates/bifrost/src/read_stream.rs:214-222 | what a reader leaves behind tiles `[start, read pointer)` exactly when it delivered no wide gap |
| ReaderTraces.TilingCoversOnce | crates/bifrost/src/read_stream.rs:483-530 | a tiling covers every address, and none twice |
| ReaderTraces.PassedRecordsAreAccountedFor | crates/bifrost/src/read_stream.rs:483-530 | in every run, wide gaps or not, every committed record the filter asks for that was passed was delivered as itself or lies in a reported trim or data-loss gap |
| ReaderTraces.StartsRise | crates/bifrost/src/read_stream.rs:497-520 | the stretches a reader leaves start at strictly rising LSNs, so no entry is delivered twice |
| ReaderTraces.StreamIsStable | crates/bifrost/src/read_stream.rs:278-299 | loglets that grow and chain versions that are added disturb no reader |
| ReaderTraces.ReadersAgree | crates/bifrost/src/read_stream.rs:483-530 | two readers that deliver a record at one LSN deliver the same one, and chain versions find its segment |
| ReaderTraces.NeverPastSealedTail | crates/bifrost/src/loglet_wrapper.rs:293-306 | nothing at or past a tail that some chain version gives a segment is delivered from it |
| ReaderTraces.ItemsAdvance | crates/bifrost/src/read_stream.rs:497-520 | every entry starts at or after the read pointer and moves it forward |
| ReaderLimits.PastEndPossibleIff | crates/bifrost/src/read_stream.rs:272-277 | when a turn polls the inner stream, some answer takes it past the end LSN exactly when everything from the inner position through the end LSN is released and unmatched and the next address is released or trimmed |
| ReaderLimits.PastEndIff | crates/bifrost/src/read_stream.rs:272-277 | a turn delivers an entry past the end LSN exactly when the inner stream hands it over from a position past the end LSN |
| ReaderLimits.PastEndIsExplained | crates/bifrost/src/read_stream.rs:272-277 | a run that delivered past its end LSN has a record there that does not match or was reported lost |
| ReaderLimits.NothingPastAWantedEnd | crates/bifrost/src/read_stream.rs:272-277 | without a filter, or with a matching record at the end LSN, and no loss reported there, nothing past it is delivered |
| ReaderLimits.FinishedIff | crates/bifrost/src/read_stream.rs:521-528 | a stream ends exactly past its end LSN, once terminated, or when the inner stream it polls has reached a sealed tail or ends, on a segment the chain still holds |
| ReaderLimits.FinishedIsExplained | crates/bifrost/src/read_stream.rs:515-528 | a stream that has returned no error ends past its end LSN or at an address that is unmatched or was reported lost |
| ReaderLimits.StepKeepsDone | crates/bifrost/src/read_stream.rs:515-528 | every turn keeps that an inner stream breaks, and a stream ends unexplained, only with an error returned |
| ReaderLimits.NeverEndsBeforeAWantedRecord | crates/bifrost/src/read_stream.rs:521-528 | without a filter, or with a matching record at the read pointer, no loss reported there and no error returned, a stream never ends before its end LSN |
| ReaderLimits.DryStretchIsExplained | crates/bifrost/src/loglet_wrapper.rs:293-306 | unless the inner stream ends after an error, running dry happens in a sealed segment and leaves out no record of it that matches and was not reported lost |
| ReaderLimits.SilentFromSealReport | crates/bifrost/src/read_stream.rs:461-475 | from a sealed tail report at the safe tail on, nothing is delivered over any run of turns until the metadata changes |
| ReaderLimits.HeldBackUntilChange | crates/bifrost/src/read_stream.rs:579-646 | nothing is delivered over any run of turns until the chain shows a tail, a newer segment or a trim |
| ReaderLimits.OneLookupPerVersion | crates/bifrost/src/read_stream.rs:380-395 | over every run, however the log changes, one lookup per version gives the same states and entries as one per turn |
| ReaderFindings.StreamEndsEarly | crates/bifrost/src/read_stream.rs:521-528 | a legal run ends at LSN 1 although a wanted record lies at LSN 3 |
| ReaderFindings.WideGapEndsStream | crates/bifrost/src/read_stream.rs:521-528 | so does one without a filter, after a data-loss gap up to the tail of a sealed segment |
| ReaderFindings.ReadErrorEndsStream | crates/bifrost/src/providers/local_loglet/read_stream.rs:151-226 | so does one without a filter, in an open segment and at LSN 1, when polled again after a read error |
| ReaderFindings.LookupMayBeStale | crates/bifrost/src/bifrost.rs:624-636 | a legal turn at version 2 opens the segment as version 1 showed it, without the tail it has by then |
| ReaderFindings.StreamOvershootsEnd | crates/bifrost/src/read_stream.rs:272-277 | a legal run bounded by LSN 1 delivers the record at LSN 3 |
| ReaderFindings.WideGapOvershootsEnd | crates/bifrost/src/read_stream.rs:272-277 | a legal run without a filter and bounded by LSN 2 delivers the record at LSN 4 after a data-loss gap |
| ReaderFindings.RepollAfterShutdownPanics | crates/bifrost/src/read_stream.rs:483-495 | a legal run gets a shutdown error while waiting for records and panics when polled once more |
| ReaderFindings.WideGapBreaksTiling | crates/bifrost/src/read_stream.rs:214-222 | a legal run leaves the read pointer inside a gap it delivered |
| ReaderFindings.FarStartPanics | crates/bifrost/src/types.rs:55-69 | a legal run panics when its substream is created |
| System.StepKeeps | crates/bifrost/src/bifrost_admin.rs:182-255 | every step of appends, loglets, chain writes and readers, in any interleaving, keeps the whole invariant |
| System.AcknowledgedIsForever | crates/bifrost/src/loglet_wrapper.rs:176-182 | over every later run an acknowledged batch keeps its LSNs and contents inside its own segment, in every chain version |
| System.AcknowledgedAreDisjoint | crates/bifrost/src/loglet.rs:102-119 | no two acknowledged batches share an LSN, and later batches of the same or a later segment lie above |
| System.BatchesAreEdits | crates/bifrost/src/log_chain_writer.rs:237-292 | the chain a metadata write leaves is the one its commands make one by one |
| System.MetadataWriteIsAStep | crates/bifrost/src/log_chain_writer.rs:233-307 | a batch the writer writes for all logs is, for each log, one allowed step of the system with the chain it leaves |
| System.MetadataAnswersAreTheSteps | crates/bifrost/src/log_chain_writer.rs:233-307 | and each of its answers is the one that step gives |
| System.SealIsAnsweredWithTheEnd | crates/bifrost/src/bifrost.rs:553-575 | wherever it stands in a batch, a successful seal is answered with the end of the segment it names |
| System.EveryReaderIsExact | crates/bifrost/src/read_stream.rs:256-654 | in every reachable state, whatever the filter asks for and was passed was delivered or reported trimmed or lost, nothing was delivered twice, and the stretches tile exactly without wide gaps |
| System.ReadersEndInOrder | crates/bifrost/src/read_stream.rs:256-654 | in every reachable state, a reader that has returned no error ends only past its end LSN, or where the next record does not match its filter or was reported lost |
| System.AnyTwoReadersAgree | crates/bifrost/src/read_stream.rs:256-654 | in every reachable state, readers agree with each other and with the current chain |
| System.RemovedWasTrimmed | crates/bifrost/src/log_chain_writer.rs:379-386 | in every reachable state, what lies before any version's head is trimmed, and trimmed addresses are downward closed |
| System.ReadersPanicIff | crates/bifrost/src/read_stream.rs:336-640 | in every reachable state, the exact condition for a panic of the next turn |
| Admin.SealedTailIsTheEnd | crates/bifrost/src/sealed_loglet.rs:100-119 | a sealed tail, of a loglet or of a marker, is where the segment ends for good |
| Admin.OpenTailIsAboveAcks | crates/bifrost/src/loglet.rs:121-131 | a consistent open tail lies above everything acknowledged before it was asked for, even from stale metadata |
| Admin.SealInner | crates/bifrost/src/bifrost_admin.rs:182-255 | seals only the expected segment; without a forced tail its answer is the segment's end and its command carries evidence |
| Admin.Seal | crates/bifrost/src/bifrost_admin.rs:258-274 | succeeds exactly when the seal was learnt and recorded, with the recorded tail |
| Admin.SealAndExtend | crates/bifrost/src/bifrost_admin.rs:140-176 | retries while the segment is open, and the one extension it asks for starts where the segment ends |
| Admin.FindTail | crates/bifrost/src/bifrost.rs:355-451 | consistent `Open` is above all acknowledged before the call, consistent `Sealed` is the tail recorded in the version read, and it only seals chains where they end |
| Trimming.Trim | crates/bifrost/src/bifrost.rs:478-501 | every loglet trim is head-first and within the request; when done, all that was committed up to the request is trimmed; the exact place of a panic |
| Trimming.AllIsTrimmed | crates/bifrost/src/bifrost.rs:485-493 | if no call fails, every address committed before and up to the request is trimmed |
| Trimming.GetTrimPoint | crates/bifrost/src/bifrost.rs:453-476 | the point is the last before the first segment without one, INVALID exactly if the first has none, and evidence otherwise |
| Trimming.TrimChain | crates/bifrost/src/watchdog.rs:185-206 | a prefix trim is sent exactly when there is a trim point, with its evidence |
| Trimming.PointsAreLegal | crates/bifrost/src/bifrost.rs:460-470 | truthful answers of the loglets are among the answers `get_trim_point` is proved for |
| Trimming.TrimPointIsExact | crates/bifrost/src/bifrost.rs:453-476 | the trim point is INVALID exactly if nothing of the head is trimmed, and otherwise the largest trimmed LSN |
| Trimming.CommandMovesPointBackIff | crates/bifrost/src/log_chain_writer.rs:379-386 | a chain command moves the trim point back exactly if it is a prefix trim, the head has been trimmed and the segment holding the successor of its point has nothing trimmed; otherwise the trim point stays where it is |
| Trimming.EventsNeverMovePointBack | crates/bifrost/src/bifrost.rs:453-476 | loglet events never move the trim point back |
| Trimming.TrimPointCanMoveBack | crates/bifrost/src/bifrost.rs:460-475 | a consistent log with trim point 2 reads INVALID once its trimmed first segment has left the chain |
| Appenders.AwaitNewerSegment | crates/bifrost/src/appender.rs:335-469 | the wait ends with the first tail newer than the sealed segment, and with no other |
| Appenders.Appender.AppendBatch | crates/bifrost/src/appender.rs:141-265 | the cached index never decreases, a success is acknowledged under a ticket of its own and answers above the last one |
| Appenders.Appender.AppendAll | crates/bifrost/src/appender.rs:141-265 | over any number of calls, the log moving on during and between them, successful appends answer strictly rising LSNs |
| Appenders.LegalAnswersLieAbove | crates/bifrost/src/appender.rs:141-265 | in every run, later appends to the same or a later segment answer above earlier ones |
| BackgroundAppenders.TrailsAppend | crates/bifrost/src/background_appender.rs:198-201 | appending a batch extends what was appended to the records of its operations, and no token loses its claim |
| BackgroundAppenders.TrailsResolve | crates/bifrost/src/background_appender.rs:206-209 | resolving an operation of an appended batch comes after every record enqueued at or before that operation was appended |
| BackgroundAppenders.FitsAppend | crates/bifrost/src/background_appender.rs:124-160 | every append of the trail carries the records of a stretch of operations that fits both limits or is a single one |
| BackgroundAppenders.BackgroundAppender.SubmitOne | crates/bifrost/src/background_appender.rs:320-507 | each send is refused for its exact reason or queued with its lease, and size-checked sends keep the pool within one record of its capacity |
| BackgroundAppenders.BackgroundAppender.SubmitMany | crates/bifrost/src/background_appender.rs:415-470 | a list is admitted as one, and the records before a failure stay queued |
| BackgroundAppenders.BackgroundAppender.StartAppend | crates/bifrost/src/background_appender.rs:178-196 | the batch goes in flight with its records and tokens in order, its leases still reserved |
| BackgroundAppenders.BackgroundAppender.AwaitAppend | crates/bifrost/src/background_appender.rs:198-204 | while it is in flight producers send; reserved bytes stay the leases in flight and queued, within one record of the capacity |
| BackgroundAppenders.BackgroundAppender.FinishAppend | crates/bifrost/src/background_appender.rs:203-213 | leases are dropped after the append, then every token of the batch is resolved, in order |
| BackgroundAppenders.BackgroundAppender.ProcessAppends | crates/bifrost/src/background_appender.rs:173-214 | fails only with records to append; success flushes exactly the batch; a failed append resolves nothing and loses only its batch |
| BackgroundAppenders.BackgroundAppender.Run | crates/bifrost/src/background_appender.rs:94-171 | with producers sending at any time, appended records are a prefix of the enqueued, all of them after a clean drain with all tokens resolved in order; every token resolves after all records up to its own operation; the batch is empty while waiting; reserved bytes are the outstanding leases; every batch ever appended fits its limits |
| Watchdogs.ReleaseFindsCount | crates/bifrost/src/watchdog.rs:140-151 | a queued release always finds a positive count |
| Watchdogs.HandleKeepsBalance | crates/bifrost/src/watchdog.rs:133-151 | handling a command moves its effect from the queue into the count |
| Watchdogs.Watchdog.AcquireToken | crates/bifrost/src/bifrost.rs:704-723 | creating or cloning a token keeps counts and queued commands in balance with the live tokens |
| Watchdogs.Watchdog.DropToken | crates/bifrost/src/bifrost.rs:725-732 | so does dropping one |
| Watchdogs.Watchdog.HandleNext | crates/bifrost/src/watchdog.rs:123-169 | the count never saturates and a log is listed exactly while its count is positive |
| Watchdogs.Watchdog.StoreTrimRequest | crates/bifrost/src/watchdog.rs:389-398 | the pending request of a log is the largest one |
| Watchdogs.Watchdog.ImproveLogs | crates/bifrost/src/watchdog.rs:276-387 | a round acts on at most a third of the logs, rounded up, and records a task only for a log without an unfinished task about its current tail |
| Watchdogs.PreferenceControl.MarkAsPreferred | crates/bifrost/src/bifrost.rs:754-759 | marking twice holds one token |
| Watchdogs.PreferenceControl.ForgetPreference | crates/bifrost/src/bifrost.rs:762-764 | forgetting drops the held token, if any |
| Properties.Parse | cli/src/util/properties.rs:105-135 | the loop collects what the lines say, with the line number of the first error |
| Properties.Serialize | cli/src/util/properties.rs:167-186 | every entry is printed once, in the order of the keys |
| Properties.RedactedKeys | cli/src/util/properties.rs:189-197 | exactly the redacted keys, sorted |
| Properties.RoundTripIff | cli/src/util/properties.rs:105-186 | parsing the printed text gives the map without its redacted keys exactly when visible keys and values are plain and redacted entries stay comments |
| Properties.PlainMapsRoundTrip | cli/src/util/properties.rs:105-186 | so every map with plain keys and values round-trips |
| Properties.RedactedNewlineLeaks | cli/src/util/properties.rs:174-178 | a newline in a redacted key brings the rest of the key back as an entry |

## Left out

- Async runtime, timers, jitter, backoff and patience: each wait is an event that may or may not happen.
- Loglet providers and the metadata store: abstract contracts.
- ReaderTraces.PassedRecordsAreAccountedFor: assumes, as `read_stream.rs` says of its loglets, that an inner stream does not move on error; the local loglet does when it cannot decode a record, which is then skipped behind the error it returned.
- The local loglet's defensive end when its iterator leaves its loglet, which its upper bound rules out.
- `forced_tail_lsn`: modelled in `SealInner`, but an operator override is not evidence and is outside every durability statement.
- Exhaustion of LSNs and offsets: the contracts assume that a log's addresses fit 64 bits and a loglet's 32 bits.
- The lookup index of replicated loglets, log configuration and timestamps in `LogsBuilder`.
- Record encoding, size estimation and the overflow of the memory pool's counter: sizes are given numbers.
- `seal_and_auto_extend_chain` for a log that does not exist yet, `ensure_log_exists`, `read`, `add_log` from the admin side.
- `read_stream_registry`, introspection, logging, metrics, start-up and shutdown of the watchdog.
- TOML properties, `parse_kv_arg`, `collect_kv_pairs` and the rest of the command line.
- Appenders.Appender.AppendBatch: the attempts end with the given list; an unbounded retry is a call that has not returned.
- Admin.FindTail: likewise, a retry without end is a call that has not returned.
- System.StepKeeps: one log; other logs do not interfere by LogsAreIndependent.
