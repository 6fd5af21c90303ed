# modular-agent-core: a verified model of its protocols

An async agent runtime whose correctness rests on protocols over shared maps, ordered logs and
bounded memories. This project models those protocols in Dafny and proves, for every run, input
and interleaving, what the runtime's comments and tests promise of them.

One module per protocol:

- `AgentTokens` - cancellation of agent loops: `(generation, token)` slots, two-level tokens,
  start, stop, renewal and preset stop interleaving one critical section at a time.
- `ContextTokens` - the registry of per-flow tokens, with weak entries and pruning.
- `PresetNames` - the preset name index: reserve, re-check, roll back, with any number of adds,
  renames and removals in flight.
- `BatchEdit` - adding a batch of agents and connections as a transaction over the agents map,
  the routing table and the preset's spec.
- `ToolScheduler` - `call_tools`: barriers, bounded concurrency, cancellation at any moment,
  salvage and fill, against a discipline of logs.
- `SchemaCoercion` - schema-directed repair of tool arguments, against a validator for `type`,
  `properties`, `required`, `items`, `anyOf` and `oneOf` of JSON Schema draft 2020-12 (Core
  sections 10.2.1.2, 10.2.1.3, 10.3.1.2 and 10.3.2.1, Validation sections 6.1.1 and 6.5.3).
- `FlowMemory`, `LoopControl` - bounded per-flow memory with FIFO eviction: executed call ids
  and iteration budgets.
- `ContextKey` - frame stacks and the key of a flow.
- `McpPool` - the MCP connection pool: ownership of every spawned service.
- `SessionLog`, `SessionStores` - the append-only session file with crash repair, against the
  store in memory.
- `SpecReconcile` - preset migration: ordered-map rewriting and key stripping.
- `EventRing` - two bounded event buffers with one counter, and cursor paging.
- `InputChannels` - the table of input channels shared by all input agents.
- `Decimal`, `Options`, `Sequences` - decimal text, the usual result types, repetition in
  sequences.

How the modules are built: a state datatype and one action per critical section give the runs
(`Run`, with arbitrary interleaving); lemmas over runs state the guarantees; and a class holds
the fields the runtime updates in place, with methods whose postconditions tie the new state to
the action they perform. Iterations that the runtime writes as loops are loops here.

Where a guarantee fails, a lemma gives the run or input that breaks it, and another the exact
condition under which it holds:

- `AgentTokens`: `DoubleStartEscapesStop`; `VacantAgentIsQuietIff`, `PresetStopLeavesNoLiveLoopIff`
- `PresetNames`: `OverlappingRenamesDisagree`; `AgreesIffLastReservedIsLastSet`
- `BatchEdit`: `EmptyListIsLost`, `ListedConnectionMovesBack`; `UnrouteUndoesAddIff`, `StripUndoesAddIff`
- `FlowMemory`: `EqualIdsRunTwice`; `RunsOnceIff`
- `ContextKey`: `LongMapFrameHasNoKey`; `PushedFrameReadableIff`
- `SessionStores`: `AppendBehindTornLineIsLost`; `FilesRefineMemoryIff`
- `InputChannels`: `StartingAgainListsTwice`; `NeverListedTwiceIff`

Two starts of one agent in quick succession start two loops, because the status is checked before
the first loop sets it. The runs include that: what a stop guarantees about the loop it cancelled
holds in all of them, and what it guarantees about the whole agent holds unless a start overwrote
the slot of a live loop that has neither exited since nor had its root cancelled. The comment on
`LoopControlAgent` promises a stop once `max_iterations` is exceeded; with a limit of 2^32 - 1 or
more the saturating counter never exceeds it.

## Model

| member | source | states |
|---|---|---|
| `AgentTokens.StepKeepsInv` | modular-agent-core/src/modular_agent.rs:1051-1123 | every critical section of start, stop, renewal, preset cancel, reset and removal, by any task and from any state, keeps the slot invariant: tokens belong to one loop, and a slot, its loop and a pending stop name the same token |
| `AgentTokens.StoppedLoopNeverBegins` | modular-agent-core/src/modular_agent.rs:1330-1350 | in every run, double starts of any agent included: once `stop_agent` has removed and cancelled the slot of generation g, loop g never begins another `process`, however its renewals and other starts interleave |
| `AgentTokens.SlotKeepsItsLoop` | modular-agent-core/src/modular_agent.rs:1106-1123 | in every run, whatever loops renew: a slot comes, goes and changes its loop only by a start or stop of its agent, and changes its token only when that loop itself writes one |
| `AgentTokens.RenewalRevives` | modular-agent-core/src/modular_agent.rs:1263-1283 | a loop that still owns its slot gets a live token by renewing, and it is the one the next `stop_agent` cancels |
| `AgentTokens.LoopsAreNeverStuck` | modular-agent-core/src/modular_agent.rs:1229-1325 | a loop that has not exited can always take a step; waiting it begins exactly if its token is live and notices exactly if not; processing it is dropped only then |
| `AgentTokens.StepEscapesIff` | modular-agent-core/src/modular_agent.rs:1088-1096 | a loop gets away from its stop with a live token in exactly one way: a start overwrites its slot while it is live; a step of any other kind, from any state, never does that |
| `AgentTokens.StopReachesEveryLoopIff` | modular-agent-core/src/modular_agent.rs:1204-1225 | a stop right after a start silences all loops of the agent if and only if the start found the slot free and no earlier start had overwritten a loop that is still live |
| `AgentTokens.DoubleStartEscapesStop` | modular-agent-core/src/modular_agent.rs:1204-1225 | two starts before the first loop reports in: the first loop still begins `process` after the stop |
| `AgentTokens.StoppedAgentStaysVacant` | modular-agent-core/src/modular_agent.rs:1341-1350 | along any run the slot of a stopped agent stays absent until some start refills it: no renewal brings it back |
| `AgentTokens.VacantAgentIsQuietIff` | modular-agent-core/src/modular_agent.rs:1341-1350 | at every moment of every run an agent without a slot and without a pending cancellation has no loop that answers to a live token, if and only if each loop of it that a start ever overwrote while it was live has exited since or has had its root cancelled |
| `AgentTokens.NoneEscapedIff` | modular-agent-core/src/modular_agent.rs:1088-1096 | with or without a slot: no loop of an agent has got away from its stops if and only if each one that a start overwrote while it was live has exited since or has had its root cancelled |
| `AgentTokens.CancelledPresetSilent` | modular-agent-core/src/modular_agent.rs:1065-1079 | in every run, from `cancel_preset_token` until the entry is dropped no loop under that root begins `process`: renewals and loops started meanwhile are born cancelled |
| `AgentTokens.PresetStopLeavesNoLiveLoopIff` | modular-agent-core/src/preset.rs:150-166 | when `Preset::stop` returns, having cancelled the root, found each slot absent at some moment and dropped the entry, while other tasks started and stopped the agents at will: a loop of its agents is dead if and only if it is no stray; strays are a loop that a start had overwritten while live and that has not ended since, and a start already in flight under an older root that is still live and was not stopped since |
| `AgentTokens.PresetStopAlone` | modular-agent-core/src/preset.rs:155-160 | stopping a list of agents vacates exactly those agents, leaves the others' slots as they are and lets no loop escape |
| `AgentTokens.StoppedPresetState` | modular-agent-core/src/preset.rs:150-166 | cancel, stops and removal composed: the entry is gone, every listed agent is vacant, and quiet unless a loop had escaped before; exactly that root and the listed agents' tokens are cancelled, other slots and entries are unchanged |
| `AgentTokens.NextStartIsLive` | modular-agent-core/src/preset.rs:161-164 | after the entry was dropped every start, the first and those that find the entry present, derives a live token, which only a later stop of that agent or cancellation of that preset can end |
| `AgentTokens.RenewedState` | modular-agent-core/src/modular_agent.rs:1106-1123 | an uninterrupted renewal installs the same new child in slot and loop, or leaves the slots as they were |
| `AgentTokens.CreatedState` | modular-agent-core/src/modular_agent.rs:1088-1096 | an uninterrupted `create_agent_token`: a new child of the preset's root in the slot and in the loop, and nothing else changed |
| `AgentTokens.StartStarts` | modular-agent-core/src/modular_agent.rs:1204-1225 | a start under a root that is not cancelled leaves the agent with a loop and a live token under that root, every other free slot free, and no loop escapes if its own slot was free |
| `AgentTokens.Runtime.PresetToken` | modular-agent-core/src/modular_agent.rs:1051-1054 | the entry of the preset, created if absent, and nothing else changed |
| `AgentTokens.Runtime.ResetPresetToken` | modular-agent-core/src/modular_agent.rs:1060-1063 | a new root for the preset |
| `AgentTokens.Runtime.CancelPresetToken` | modular-agent-core/src/modular_agent.rs:1074-1079 | cancels the preset's root if there is one; the entry stays |
| `AgentTokens.Runtime.RemovePresetToken` | modular-agent-core/src/modular_agent.rs:1081-1083 | drops the entry |
| `AgentTokens.Runtime.CreateAgentToken` | modular-agent-core/src/modular_agent.rs:1088-1096 | the new state, in the form of the two steps Derive and Install |
| `AgentTokens.Runtime.RenewAgentToken` | modular-agent-core/src/modular_agent.rs:1106-1123 | succeeds if and only if the parent exists and the slot is still the caller's; the invariant is kept |
| `AgentTokens.Runtime.StopAgent` | modular-agent-core/src/modular_agent.rs:1341-1350 | removes the slot and cancels its token |
| `AgentTokens.Runtime.PresetStop` | modular-agent-core/src/preset.rs:150-166 | afterwards every listed agent is vacant, and quiet unless a loop had escaped before; other agents' slots are unchanged, the invariant holds |
| `AgentTokens.Preset.Start` | modular-agent-core/src/preset.rs:126-147 | starts nothing if already running; otherwise every enabled agent that can start has a loop with a live token under the preset's new root, and nothing else happens: slots of disabled and of all other agents, old loops, stops, cancellations and other presets' roots are as before, each new loop belongs to an agent that was to be started, and no loop of an agent whose slot was free escapes |
| `AgentTokens.Preset.Stop` | modular-agent-core/src/preset.rs:150-166 | no agent of the preset has a slot, none has a live loop unless one had escaped before, exactly the preset's root and its agents' tokens are cancelled, the root is dropped, and all other slots and every loop's record are as before |
| `ContextTokens.StepKeepsInv` | modular-agent-core/src/modular_agent.rs:1131-1175 | lookups, clones, drops and aborts keep: a held token is the registered one of its own context |
| `ContextTokens.HeldTokenIsTheEntry` | modular-agent-core/src/modular_agent.rs:1125-1142 | while a flow holds its token, every lookup of its context returns that token, abort cancels it, and no other context is given it |
| `ContextTokens.SameTokenIffHeld` | modular-agent-core/src/modular_agent.rs:1125-1142 | two lookups of one context return the same token if and only if it was held all the way in between |
| `ContextTokens.DroppedTokenStaysGone` | modular-agent-core/src/modular_agent.rs:1125-1130 | a token nobody holds any more is never returned again |
| `ContextTokens.AbortReachesLaterLookups` | modular-agent-core/src/modular_agent.rs:1144-1175 | whoever looks an aborted live flow up later gets a cancelled token |
| `ContextTokens.InsertionKeepsLiveFlows` | modular-agent-core/src/modular_agent.rs:1136-1141 | pruning drops dead entries only: the live contexts after an insertion are those before and the new one, with unchanged tokens |
| `ContextTokens.RegistryIsBounded` | modular-agent-core/src/modular_agent.rs:1136-1141 | after an insertion the registry has at most 1024 entries, or only live ones |
| `ContextTokens.Registry.ContextToken` | modular-agent-core/src/modular_agent.rs:1131-1142 | returns the live entry or a new token, now held; the invariant is kept |
| `ContextTokens.Registry.AbortContext` | modular-agent-core/src/modular_agent.rs:1158-1175 | true if and only if some holder of the context's flow is alive; cancels exactly its token |
| `PresetNames.StepKeepsInv` | modular-agent-core/src/modular_agent.rs:349-493 | every critical section of any number of adds, renames and removals keeps the index invariant |
| `PresetNames.IndexAtEveryMoment` | modular-agent-core/src/modular_agent.rs:349-493 | at every moment no preset owns two names, a live preset that was ever named keeps exactly one entry, and an entry of a preset that is not live has an operation in flight that answers for it |
| `PresetNames.QuiescentIndex` | modular-agent-core/src/modular_agent.rs:349-493 | when nothing is in flight the index is a bijection between its names and the live presets that were ever named |
| `PresetNames.AddNeverCollides` | modular-agent-core/src/modular_agent.rs:381-396 | ids are never reused, so the duplicate-id branch is never taken and the reserved name is never rolled back |
| `PresetNames.CleanupSparesLivePresets` | modular-agent-core/src/modular_agent.rs:434-440 | neither a roll-back nor the clean-up of a removal touches the entry of a live preset |
| `PresetNames.IndexAgreesWithLabels` | modular-agent-core/src/modular_agent.rs:408-450 | if renames of one preset never overlap, then at rest index and preset name agree |
| `PresetNames.AgreesIffLastReservedIsLastSet` | modular-agent-core/src/modular_agent.rs:349-493 | in every run, at every moment and for every live preset: index and preset name agree if and only if the last reservation that succeeded for it and the last name that was set for it are the same, whatever adds, renames and removals overlap |
| `PresetNames.OverlappingRenamesDisagree` | modular-agent-core/src/modular_agent.rs:408-450 | two overlapping renames of one preset that leave index and preset name apart |
| `PresetNames.Index.ReserveNew` | modular-agent-core/src/modular_agent.rs:356-364 | takes a new id and reserves the name, or fails exactly if the name is taken; the invariant is kept |
| `PresetNames.Index.InsertPreset` | modular-agent-core/src/modular_agent.rs:381-396 | always inserts: the roll-back branch is unreachable |
| `PresetNames.Index.FindForRename` | modular-agent-core/src/modular_agent.rs:409-411 | starts a rename exactly if the preset is live |
| `PresetNames.Index.ReserveName` | modular-agent-core/src/modular_agent.rs:413-424 | moves the preset's entry to the new name, or fails exactly if another preset owns it |
| `PresetNames.Index.RecheckLive` | modular-agent-core/src/modular_agent.rs:434-440 | goes on exactly if the preset is still live |
| `PresetNames.Index.RollBackName` | modular-agent-core/src/modular_agent.rs:435-438 | takes the reservation back and leaves the entries of live presets alone |
| `PresetNames.Index.SetPresetName` | modular-agent-core/src/modular_agent.rs:442-447 | sets the preset's own name |
| `PresetNames.Index.FindForRemoval` | modular-agent-core/src/modular_agent.rs:457-459 | starts a removal exactly if the preset is live |
| `PresetNames.Index.DropFromPresets` | modular-agent-core/src/modular_agent.rs:483-486 | the preset leaves the map; its entry stays for the moment |
| `PresetNames.Index.CleanNames` | modular-agent-core/src/modular_agent.rs:487-487 | removes every entry of the preset |
| `PresetNames.Index.AddPresetRaw` | modular-agent-core/src/modular_agent.rs:349-401 | the public operation as the composition of its critical sections, and its result |
| `PresetNames.Index.RenamePreset` | modular-agent-core/src/modular_agent.rs:408-450 | the public operation as the composition of its critical sections: it fails for a preset that does not exist or a name that another preset owns, and so succeeds for the preset's own name; otherwise exactly the preset's entry and label move |
| `PresetNames.Index.RemovePreset` | modular-agent-core/src/modular_agent.rs:456-493 | the public operation as the composition of its critical sections |
| `BatchEdit.RenamingIsIsomorphic` | modular-agent-core/src/id.rs:16-47 | the renaming of a batch with distinct ids and its own endpoints is an isomorphic copy with distinct new ids |
| `BatchEdit.RenamingIsInjective` | modular-agent-core/src/id.rs:29-44 | renaming keeps different connections different |
| `BatchEdit.FreshBatch` | modular-agent-core/src/modular_agent.rs:878-946 | an own batch with unused new ids can always be undone, and fails only on an agent that cannot be constructed or a connection it repeats itself |
| `BatchEdit.RoutedAfterIff` | modular-agent-core/src/modular_agent.rs:829-858 | after adding connections in order the table routes exactly the old ones and the added ones |
| `BatchEdit.AddedAreReached` | modular-agent-core/src/message.rs:100-145 | after adding connections a message on a port reaches the inputs it reached before and then, in order, the targets of the added connections from that source and source handle, at their target handles |
| `BatchEdit.UnroutedFirst` | modular-agent-core/src/modular_agent.rs:1034-1046 | removing the first added connection leaves the table as if it had never been added, except that a source listed without targets is gone |
| `BatchEdit.UnrouteUndoesAddIff` | modular-agent-core/src/modular_agent.rs:1034-1046 | removing a connection just added restores the table if and only if its source was not listed without targets |
| `BatchEdit.EmptyListIsLost` | modular-agent-core/src/modular_agent.rs:1034-1046 | a table that is not restored: the source was listed without targets |
| `BatchEdit.RemoveFirstBehind` | modular-agent-core/src/spec.rs:54-57 | removing a connection from the spec removes the one that was appended, if the spec did not list it before |
| `BatchEdit.StripUndoesAddIff` | modular-agent-core/src/modular_agent.rs:925-930 | removing from the spec what was added to it never loses a connection, and restores the spec if and only if those of them it listed already are where adding and removing leaves them |
| `BatchEdit.ListedConnectionMovesBack` | modular-agent-core/src/spec.rs:54-57 | a spec that is not restored: the connection was listed before another one |
| `BatchEdit.ListedLastIff` | modular-agent-core/src/spec.rs:54-57 | in a spec without repetitions that means: they are its last connections, in the batch's order |
| `BatchEdit.Runtime.UpdateIds` | modular-agent-core/src/id.rs:10-47 | new distinct ids from the counter, whatever ids other tasks take in between; agents and connections renamed |
| `BatchEdit.Runtime.AddAgentInternal` | modular-agent-core/src/modular_agent.rs:762-779 | the three outcomes, and the agents map in each |
| `BatchEdit.Runtime.AddConnectionInternal` | modular-agent-core/src/modular_agent.rs:829-858 | fails if and only if target, source handle and target handle are listed for the source already; otherwise that entry is appended to the source's list, and nothing else changes |
| `BatchEdit.Runtime.AgentOut` | modular-agent-core/src/message.rs:100-145 | a message on a port goes to exactly the inputs routed from it whose agent exists, in order |
| `BatchEdit.Runtime.RemoveConnectionInternal` | modular-agent-core/src/modular_agent.rs:1034-1046 | removes entries with this target and these handles, and the source with its last one; other sources are unchanged |
| `BatchEdit.Preset.RemoveAgent` | modular-agent-core/src/spec.rs:41-43 | keeps the agents with other ids, in order |
| `BatchEdit.Preset.RemoveConnection` | modular-agent-core/src/spec.rs:54-57 | removes the first equal connection, if there is one |
| `BatchEdit.Runtime.RollBack` | modular-agent-core/src/modular_agent.rs:925-940 | after undoing what was added the agents map is as before and the spec has all its connections; routing table and spec are as before if and only if the state was restorable: no agent of the spec has one of the ids, no source was listed without targets, connections listed already are last |
| `BatchEdit.Runtime.AddAgentsAndConnections` | modular-agent-core/src/modular_agent.rs:878-946 | exactly when a batch succeeds, what it adds and which inputs each port reaches then, which failure it reports, and that a failure always restores the agents map and restores routing and spec if and only if what the batch had added when it failed can be undone |
| `BatchEdit.Runtime.AddOwnBatch` | modular-agent-core/src/modular_agent.rs:874-946 | a batch with distinct ids and its own endpoints, whose drawn ids are unused, is added as an isomorphic copy or changes nothing, whichever element fails |
| `BatchEdit.Runtime.AddNextBatch` | modular-agent-core/src/id.rs:10-47 | as long as no id that the counter can still hand out is in use, the ids a batch draws are unused, and no later id is used by it |
| `ToolScheduler.AtMostMaxInFlight` | modular-agent-core/src/tool.rs:697-720 | at every moment at most max(1, `max_concurrency`) tool bodies run |
| `ToolScheduler.SequentialRunsAlone` | modular-agent-core/src/tool.rs:807-838 | while the body of a call runs whose tool is not Parallel, it is alone, every earlier call has its result and no later one was entered |
| `ToolScheduler.LaterCallsWait` | modular-agent-core/src/tool.rs:813-838 | of two calls that are not both Parallel, or have a call between them that is not, the later is entered only after the earlier has finished |
| `ToolScheduler.ParallelCallsOverlap` | modular-agent-core/src/tool.rs:697-720 | adjacent calls of Parallel tools may all run at once, up to the limit |
| `ToolScheduler.EntriesAndDrops` | modular-agent-core/src/tool.rs:429-455 | only calls of known tools with accepted arguments are entered, and a body is dropped only after the token fired |
| `ToolScheduler.ReadyResultsAreKept` | modular-agent-core/src/tool.rs:731-737 | a Parallel body that was ready to finish is never dropped: once nothing runs, it has its own result, whatever was cancelled in between |
| `ToolScheduler.RefusalsSayWhy` | modular-agent-core/src/tool.rs:593-640 | a call finished without entering its tool is an error that carries its id and name and says why: rejected arguments, cancellation, or an unknown tool |
| `ToolScheduler.NoEntryAfterFire` | modular-agent-core/src/tool.rs:77-91 | after the token fires no tool body is entered, and none is ever entered twice |
| `ToolScheduler.WaitsAtMostTwice` | modular-agent-core/src/tool.rs:721-737 | cancellation is prompt: once the token has fired the scheduler waits at most twice more, for the poll during which it fired and for the last poll of the salvage |
| `ToolScheduler.ResultsAreFinal` | modular-agent-core/src/tool.rs:721-737 | a result once produced is never replaced, whatever is cancelled later |
| `ToolScheduler.OwedCarriesTheCall` | modular-agent-core/src/tool.rs:456-461 | the message for a call carries its id and tool name; a call never entered is answered as an error, and one without a result as aborted |
| `ToolScheduler.Session.RunSequential` | modular-agent-core/src/tool.rs:831-837 | the result of the call, or none only if the token fired; nothing of it runs afterwards |
| `ToolScheduler.Session.Drive` | modular-agent-core/src/tool.rs:721-730 | each result lands in its own slot; an unaborted stream is exhausted |
| `ToolScheduler.Session.Salvage` | modular-agent-core/src/tool.rs:731-737 | after an abort every result the stream still yields lands in its slot, none is lost, and no call that is ready to finish is left running |
| `ToolScheduler.Session.FlushParallelBatch` | modular-agent-core/src/tool.rs:697-747 | one message per entry in the batch's order, real results kept after an abort, nothing left running |
| `ToolScheduler.Session.CallTools` | modular-agent-core/src/tool.rs:789-863 | for every list of calls, completion order and cancellation moment: exactly one message per call in input order, each its own result or the aborted one, and a log that obeys the discipline |
| `SchemaCoercion.ValidValueUnchanged` | modular-agent-core/src/tool.rs:471-552 | a value that validates is left unchanged, for every schema over the modelled keywords |
| `SchemaCoercion.CoercionOnlyRepairs` | modular-agent-core/src/tool.rs:486-552 | on any value and schema only string leaves change, into the integer, number or boolean they read as; keys, lengths and other leaves stay |
| `SchemaCoercion.TextIsRestoredIff` | modular-agent-core/src/tool.rs:471-552 | for every compilable schema and valid value w: coercion turns v into w if and only if v is w with some of its leaves, at any depth, sent as the text of the type their schema asks for, the first alternative whose repair it accepts having its say first |
| `SchemaCoercion.FirstAcceptedRepairWins` | modular-agent-core/src/tool.rs:495-503 | of the alternatives the first repair that its own variant accepts wins, and without one the value stays |
| `SchemaCoercion.IntegerTextIsRestored` | modular-agent-core/src/tool.rs:508-517 | the decimal text of an integer reads back as it over the whole i64 range, and not at all outside it |
| `SchemaCoercion.SignedTextReads` | modular-agent-core/src/tool.rs:508-516 | a plus sign and leading zeros do not matter when a text is read as an integer |
| `SchemaCoercion.FractionsAreNotTruncated` | modular-agent-core/src/tool.rs:509-517 | a text with a non-digit behind the first character is never coerced to an integer |
| `SchemaCoercion.ValidationIsSound` | modular-agent-core/src/tool.rs:554-589 | valid arguments pass untouched, whatever passes a compilable schema validates, and a refusal means that neither the arguments nor their repair validate |
| `SchemaCoercion.ReceivedMeetsSchema` | modular-agent-core/src/tool.rs:554-589 | what reaches a tool has the type, every required key, valid properties and items, some valid alternative of anyOf and exactly one of oneOf |
| `SchemaCoercion.MeetingArgumentsPass` | modular-agent-core/src/tool.rs:554-589 | arguments that meet a compilable schema keyword by keyword pass untouched |
| `SchemaCoercion.BrokenSchemaBlocksNothing` | modular-agent-core/src/tool.rs:563-575 | a schema with a keyword of the wrong shape, an unknown type or a part that does not compile blocks and changes no arguments |
| `SchemaCoercion.MissingKeyIsRefused` | modular-agent-core/src/tool.rs:554-589 | arguments that lack a required key never reach the tool |
| `SchemaCoercion.ReceivesIff` | modular-agent-core/src/tool.rs:554-589 | for every compilable schema: a tool receives the value w if and only if w is valid and the arguments are w with some leaves sent as text |
| `SchemaCoercion.CoerceBySchema` | modular-agent-core/src/tool.rs:486-552 | the rewrite in place, stage by stage with its loops, computes the specified coercion |
| `SchemaCoercion.RepairByVariants` | modular-agent-core/src/tool.rs:491-506 | the loop over the variants takes the first repair that its variant accepts |
| `SchemaCoercion.RepairFields` | modular-agent-core/src/tool.rs:535-543 | the loop over the properties coerces each present property by its schema |
| `SchemaCoercion.RepairItems` | modular-agent-core/src/tool.rs:545-551 | the loop over the array coerces each item |
| `FlowMemory.MemoryIsFifo` | modular-agent-core/src/tool.rs:1265-1289 | in every history the order lists exactly the remembered flows, once each, in insertion order, at most 1024 |
| `FlowMemory.TrackedIffLive` | modular-agent-core/src/tool.rs:1275-1289 | a flow is remembered if and only if fewer than 1024 newer keys were inserted |
| `FlowMemory.SkippedAgainIff` | modular-agent-core/src/tool.rs:1301-1357 | an id that ran for a flow is skipped in a later message of it if and only if the agent did not stop and fewer than 1024 newer keys were inserted since |
| `FlowMemory.RunsAsOftenAsListed` | modular-agent-core/src/tool.rs:1339-1357 | for every list of calls: an id executed before runs not at all, any other runs exactly as often as the message lists it |
| `FlowMemory.RunsInOrder` | modular-agent-core/src/tool.rs:1339-1347 | the calls that run are those without an id and those whose id is not remembered for the flow, in the order of the message |
| `FlowMemory.RunsOnceIff` | modular-agent-core/src/tool.rs:1339-1357 | at most one call of a message runs under an id if and only if the id is executed already or the message lists it at most once |
| `FlowMemory.EqualIdsRunTwice` | modular-agent-core/src/tool.rs:1339-1357 | a message that lists a new id twice: both calls run |
| `FlowMemory.RunsAsOftenAsFirstListed` | modular-agent-core/src/tool.rs:1263-1357 | over a history: while the flow is remembered, an id has run exactly as often as the first message that names it lists it, whatever later messages list; so at most once if and only if that message lists it once |
| `FlowMemory.CallToolMessageAgent.MarkExecuted` | modular-agent-core/src/tool.rs:1275-1289 | the table and the order after marking an id, evicting the oldest key when full |
| `FlowMemory.CallToolMessageAgent.Process` | modular-agent-core/src/tool.rs:1307-1378 | the calls that run, or are refused for a cut message, are those not executed before, and all of them are remembered |
| `FlowMemory.CallToolMessageAgent.StopAgent` | modular-agent-core/src/tool.rs:1301-1305 | forgets everything |
| `LoopControl.TableIsHistory` | modular-agent-core/src/tool.rs:1474-1527 | while a flow is not evicted its entry is its history: the number of fresh messages, saturating at 2^32-1, and the last counted id |
| `LoopControl.BudgetIsExact` | modular-agent-core/src/tool.rs:1474-1527 | of n fresh messages of a flow since the last stop exactly min(n, max) are forwarded and n - min(n, max) notices are emitted; all are forwarded if max <= 0 or max >= 2^32-1 |
| `LoopControl.RepeatsIff` | modular-agent-core/src/tool.rs:1497-1513 | a message repeats an earlier one if and only if it has an id and the message of the flow counted last since the last stop had the same id; so every message without an id is counted |
| `LoopControl.BudgetWithoutIds` | modular-agent-core/src/tool.rs:1410-1411 | of n messages of a flow without ids exactly min(n, max) are forwarded and each other one gives a notice |
| `LoopControl.PassThroughIsTransparent` | modular-agent-core/src/tool.rs:1485-1490 | whatever is not countable is forwarded and counts for no flow |
| `LoopControl.RedeliveryFollowsTheFirst` | modular-agent-core/src/tool.rs:1497-1510 | a redelivery of the message counted last is forwarded if and only if that message was, gives no notice and is not counted |
| `LoopControl.LoopControlAgent.RecordCount` | modular-agent-core/src/tool.rs:1445-1456 | the table and the order after recording a count, evicting the oldest key when full |
| `LoopControl.LoopControlAgent.StopAgent` | modular-agent-core/src/tool.rs:1468-1472 | forgets everything |
| `LoopControl.LoopControlAgent.Process` | modular-agent-core/src/tool.rs:1474-1527 | the new counts and the output for every arrival |
| `ContextKey.SameKeyIff` | modular-agent-core/src/context.rs:264-274 | two contexts have the same key if and only if their ids and the branches of all their map frames are equal |
| `ContextKey.KeyTextInjective` | modular-agent-core/src/context.rs:264-274 | the key text determines the id and the list of branches |
| `ContextKey.PushedFrameReadableIff` | modular-agent-core/src/context.rs:141-175 | a pushed map frame becomes the last branch of the key if and only if its length is below 2^63; otherwise the key is unreadable |
| `ContextKey.PushMapFrameIff` | modular-agent-core/src/context.rs:200-213 | a map frame can be pushed if and only if its index is below its length, and is pushed as such |
| `ContextKey.ReadMapFrameIff` | modular-agent-core/src/context.rs:154-178 | a frame reads as a branch if and only if it has an index from 0 on, below its length |
| `ContextKey.PopMapFrameIff` | modular-agent-core/src/context.rs:233-246 | a map frame can be popped if and only if one is on top, and exactly it is taken off |
| `ContextKey.LongMapFrameHasNoKey` | modular-agent-core/src/context.rs:141-175 | a push of length 2^63 that succeeds and leaves the flow without a key |
| `ContextKey.OtherFramesKeepTheKey` | modular-agent-core/src/context.rs:253-256 | frames of any other name do not enter the key |
| `ContextKey.BranchesAreSeparate` | modular-agent-core/src/context.rs:200-212 | two pushes onto one context have equal keys only if index and length are equal, and never the parent's key |
| `ContextKey.PopUndoesPush` | modular-agent-core/src/context.rs:278-302 | popping a pushed map frame restores the frame stack, and the very context unless its stack was present but empty |
| `ContextKey.MapFrameIndices` | modular-agent-core/src/context.rs:248-261 | the loop collects the branches, or reports the first unreadable frame |
| `McpPool.StepKeepsInv` | modular-agent-core/src/mcp.rs:273-389 | every step of the pool, the calls, the cancel tasks and the shutdowns keeps ownership; entries stay, dead ones stay dead, an entry out of the pool never returns |
| `McpPool.ServicesAreOwnedOnce` | modular-agent-core/src/mcp.rs:273-389 | at every moment each service ever spawned has exactly one owner: pool slot, cancel task, shutdown list, or cancelled once; an entry without its service is dead and not pooled |
| `McpPool.PooledServiceIsNeverGone` | modular-agent-core/src/mcp.rs:278-290 | whether the connection lock is free makes no difference: the pool never holds a connection without its service |
| `McpPool.RetryUsesAnotherConnection` | modular-agent-core/src/mcp.rs:127-150 | the retry of a call uses another connection to the same server; the failed one is dead and out of the pool for good |
| `McpPool.HealthyConnectionStaysIff` | modular-agent-core/src/mcp.rs:349-362 | a pooled connection stays pooled, whatever late invalidations and reconnects happen, exactly until a call on it fails or a shutdown drains the pool |
| `McpPool.QuietMeansAllCancelled` | modular-agent-core/src/mcp.rs:379-389 | with nothing pooled, pending or draining, every service ever spawned was cancelled exactly once |
| `McpPool.ShutdownCancelsEverything` | modular-agent-core/src/mcp.rs:425-456 | after a drain, and until a process is spawned again, the pool is empty; when its tasks are through every service is cancelled |
| `McpPool.MCPConnectionPool.Acquire` | modular-agent-core/src/mcp.rs:273-347 | `get_or_create`: reuse, or discard and cancel, then spawn; the entry or the failure |
| `McpPool.MCPConnectionPool.Evict` | modular-agent-core/src/mcp.rs:353-362 | `invalidate` removes and cancels a dead entry and nothing else |
| `McpPool.MCPConnectionPool.TakeAll` | modular-agent-core/src/mcp.rs:369-371 | draining in any order takes every pooled entry, once, and leaves the pool empty |
| `McpPool.MCPConnectionPool.SpawnCancelTask` | modular-agent-core/src/mcp.rs:379-381 | marks the entry dead and leaves one pending cancellation |
| `McpPool.MCPConnectionPool.RunTask` | modular-agent-core/src/mcp.rs:379-389 | a background task takes and cancels what the connection still holds, and the invariant is kept |
| `McpPool.MCPConnectionPool.Shutdown` | modular-agent-core/src/mcp.rs:425-456 | run by itself: the pool is empty, and every connection it held is dead, its service cancelled once or, where the wait timed out, about to be cancelled in the background; a run of pool steps |
| `McpPool.MCPConnectionPool.ToolCall` | modular-agent-core/src/mcp.rs:103-150 | no attempt if and only if no process starts and the pool holds no connection that is not dead; otherwise one attempt if it succeeds or no new process starts, else exactly two, the second on another connection and deciding the result; the pool steps it performs |
| `SessionLog.EntryRoundTrip` | modular-agent-core/src/session.rs:336-339 | the line of an entry decodes to it, and no other line does |
| `SessionLog.EntriesAreOneLine` | modular-agent-core/src/session.rs:336-339 | the line of an entry contains no line break |
| `SessionLog.FusedLineDoesNotDecode` | modular-agent-core/src/session.rs:262-271 | an entry line appended onto anything but a line start does not decode |
| `SessionLog.LoadReturnsEntries` | modular-agent-core/src/session.rs:349-400 | load returns exactly the completed entries in order and truncates the torn line |
| `SessionLog.AppendAfterCrashIff` | modular-agent-core/src/session.rs:323-400 | a completed append behind a crash is loaded if and only if the crash left nothing behind; otherwise load fails and names the fused line |
| `SessionLog.SpoiltForever` | modular-agent-core/src/session.rs:380-399 | a file that load rejects is rejected for the same reason whatever is appended |
| `SessionLog.SpoiltAfterLoad` | modular-agent-core/src/session.rs:362-399 | a rejecting load leaves the file rejected in the same way |
| `SessionLog.TornHeaderFails` | modular-agent-core/src/session.rs:380-385 | a header torn in create can never be loaded |
| `SessionStores.FilesRefineMemoryIff` | modular-agent-core/src/session.rs:227-400 | after any run of creates, appends, crash-cut appends and loads the file store answers the next operation as the memory store does, unless it loads a session in which a completed append followed a torn line that no load had removed |
| `SessionStores.AppendBehindTornLineIsLost` | modular-agent-core/src/session.rs:266-272 | the history create, torn append, append, load: the memory store returns the entry, the file store does not |
| `SessionStores.CrashedSessionsRefineMemory` | modular-agent-core/src/session.rs:262-400 | if a load follows each crash before the next append, the file store always answers as the memory store |
| `SessionStores.RepairedRunsFuseNothing` | modular-agent-core/src/session.rs:358-361 | that rule of the callers is enough to keep every append on a line start |
| `SessionStores.MemoryIsAList` | modular-agent-core/src/session.rs:227-254 | the store in memory keeps the list of completed entries of every session that was created, and refuses to create one twice and to append to or load an unknown one |
| `SessionStores.InMemorySessionStore.Create` | modular-agent-core/src/session.rs:229-237 | a new empty session or a duplicate error |
| `SessionStores.InMemorySessionStore.Append` | modular-agent-core/src/session.rs:239-246 | the entry at the end, or not found |
| `SessionStores.InMemorySessionStore.Load` | modular-agent-core/src/session.rs:248-254 | the entries, or not found |
| `SessionStores.JsonlSessionStore.Create` | modular-agent-core/src/session.rs:291-321 | the header line in a new file, or a duplicate error |
| `SessionStores.JsonlSessionStore.Append` | modular-agent-core/src/session.rs:323-347 | one line appended, or not found |
| `SessionStores.JsonlSessionStore.CrashAppend` | modular-agent-core/src/session.rs:339-347 | an append that dies after any number of characters |
| `SessionStores.JsonlSessionStore.Load` | modular-agent-core/src/session.rs:349-400 | truncates a torn tail, checks the header, and parses the lines |
| `SessionStores.JsonlSessionStore.ParseLines` | modular-agent-core/src/session.rs:380-399 | the loop returns all entries or the error of the first bad line with its number |
| `SpecReconcile.ReconcileExactly` | modular-agent-core/src/definition.rs:579-650 | the exact result: definition keys first in its order, then old prefixed keys, then stale keys under their new names, each group in order; and the value of every key |
| `SpecReconcile.NothingElseIsLost` | modular-agent-core/src/definition.rs:566-576 | every value the user had set survives under its own or its prefixed name, except where a stale key takes the prefixed name over |
| `SpecReconcile.DefaultsFillGaps` | modular-agent-core/src/definition.rs:614-621 | a key of the definition that the user had not set gets its default, unless a stale key is renamed to it |
| `SpecReconcile.ReconcileIsIdempotent` | modular-agent-core/src/definition.rs:575-650 | reconciling again changes neither values nor order |
| `SpecReconcile.ConstructedHasDefinedKeysIff` | modular-agent-core/src/agent.rs:163-166 | the constructed agent has exactly the definition's keys in order if and only if none of them is prefixed, each with the user's value or the default |
| `SpecReconcile.RenamedLookup` | modular-agent-core/src/definition.rs:598-611 | renaming moves the value of every stale key to its prefixed name and no other |
| `SpecReconcile.Reordered` | modular-agent-core/src/definition.rs:632-649 | reordering changes no value and puts the definition's keys first in its order |
| `SpecReconcile.AgentConfigs.Set` | modular-agent-core/src/config.rs:25-27 | in place for an old key, at the end for a new one |
| `SpecReconcile.AgentConfigs.Remove` | modular-agent-core/src/config.rs:216-218 | the value, and the other pairs in their order |
| `SpecReconcile.AgentConfigs.Retain` | modular-agent-core/src/config.rs:221-226 | the pairs whose keys satisfy the predicate, in order |
| `SpecReconcile.ReconcileSpec` | modular-agent-core/src/definition.rs:579-650 | the rewrite in place, with its loops, computes the specified configs and takes over ports and config specs |
| `SpecReconcile.ConstructAgent` | modular-agent-core/src/agent.rs:163-166 | reconciling and constructing leaves the definition's unprefixed keys in order, with the user's values or the defaults |
| `EventRing.StepKeepsInv` | modular-agent-core/src/mcp_server.rs:300-402 | pushes to both buffers, split where the other buffer may interleave, and polls keep buffers sorted and the cursor behind every number still to be pushed |
| `EventRing.PagingNeverRepeats` | modular-agent-core/src/mcp_server.rs:300-303 | paging by the last returned number gives strictly increasing records, all pushed and matching |
| `EventRing.PassedMeansReturnedOrEvicted` | modular-agent-core/src/mcp_server.rs:1295-1305 | a matching record the cursor has passed was returned, or at least 200 records of its kind were pushed after it |
| `EventRing.ShortPageMeansCaughtUp` | modular-agent-core/src/mcp_server.rs:1322-1328 | after a page that its limit did not cut, every matching record was returned unless at least 200 later ones evicted it |
| `EventRing.PageExactly` | modular-agent-core/src/mcp_server.rs:368-402 | a page has at most `limit` records, exactly those buffered after the old cursor up to the new one that have the preset id or channel asked for, in order; a page below the limit leaves none behind |
| `EventRing.PushArrives` | modular-agent-core/src/mcp_server.rs:333-364 | whatever is pushed and polled in between, the record a push began with, numbered by the counter at that moment, becomes the newest of its buffer |
| `EventRing.EventRing.PushError` | modular-agent-core/src/mcp_server.rs:333-351 | one push step of the runs, whatever numbers the other buffer takes in between: the oldest record goes at 200, the new one with its number is appended, the other buffer is unchanged |
| `EventRing.EventRing.PushOutput` | modular-agent-core/src/mcp_server.rs:353-364 | one push step of the runs, whatever numbers the other buffer takes in between: the oldest record goes at 200, the new one with its number is appended, the other buffer is unchanged |
| `EventRing.EventRing.GetErrors` | modular-agent-core/src/mcp_server.rs:1291-1311 | at most `limit` or 50 records: exactly the errors after the cursor, up to the new one, of the preset asked for; a page below the limit leaves none behind |
| `EventRing.EventRing.GetOutputs` | modular-agent-core/src/mcp_server.rs:1318-1334 | at most `limit` or 50 records: exactly the outputs after the cursor, up to the new one, of the channel asked for; a page below the limit leaves none behind |
| `EventRing.EventRing.Page` | modular-agent-core/src/mcp_server.rs:368-383 | the filter loop and the truncation compute the page |
| `InputChannels.StepKeepsInv` | modular-agent-core/src/external_agent.rs:197-250 | starts, repeated starts, stops and channel changes of any agents, split at the table's lock, keep every agent listed as often as it registered since its last removal, under its own channel only |
| `InputChannels.ListedAsRegistered` | modular-agent-core/src/external_agent.rs:197-250 | at every moment of every run an agent is listed as often as it registered since its last removal, only under its current channel: its name, or for a local agent its preset's id and its variable |
| `InputChannels.ListedOnceAfterStartIff` | modular-agent-core/src/external_agent.rs:197-208 | a start lists the agent once more, so it is listed exactly once afterwards if and only if it was stopped when the start began |
| `InputChannels.ListedOnceWhileRunning` | modular-agent-core/src/external_agent.rs:197-250 | an agent whose starts began while it was stopped, and that is not in the middle of a change, is listed exactly once under its current channel while it runs with one, and nowhere otherwise |
| `InputChannels.NeverListedTwiceIff` | modular-agent-core/src/external_agent.rs:221-250 | an agent is never listed twice, not even in the middle of a change, if and only if every one of its starts on a channel began while it was stopped |
| `InputChannels.NeverOnTwoChannels` | modular-agent-core/src/external_agent.rs:221-250 | no agent is ever listed under two channels, started again or not |
| `InputChannels.StartingAgainListsTwice` | modular-agent-core/src/external_agent.rs:197-208 | the run of two tasks that both found the agent stopped and start it one after the other: it is listed twice |
| `InputChannels.LocalChannelsIff` | modular-agent-core/src/external_agent.rs:408-410 | for preset ids without a slash, local channels are equal if and only if preset and variable are |
| `InputChannels.PresetsAreIsolated` | modular-agent-core/src/external_agent.rs:408-410 | variables of different presets never share a channel |
| `InputChannels.PresetsAreNeverListedTogether` | modular-agent-core/src/external_agent.rs:350-362 | at every moment of every run, agents listed under one channel of preset variables belong to one preset and have one variable |
| `InputChannels.InputAgent.StartAgent` | modular-agent-core/src/external_agent.rs:350-362 | registers the agent under its channel, if it has one, whatever its status |
| `InputChannels.InputAgent.StopAgent` | modular-agent-core/src/external_agent.rs:364-374 | removes the agent from its channel |
| `InputChannels.InputAgent.ConfigsChanged` | modular-agent-core/src/external_agent.rs:376-405 | moves the registration only while the agent runs and the name changes; the name is taken over in any case |
| `Decimal.ValueOfToString` | modular-agent-core/src/id.rs:10-14 | the decimal text of an id reads back as its number, so ids are never equal for different counter values |

## Left out

- PresetNames.IndexAgreesWithLabels: assumes that renames of one preset do not overlap, because overlapping ones do disagree (`OverlappingRenamesDisagree`); the exact condition is `AgreesIffLastReservedIsLastSet`.
- InputChannels.ListedOnceWhileRunning: assumes that the agent's starts began while it was stopped, which is necessary (`NeverListedTwiceIff`).
- AgentTokens.PresetStopLeavesNoLiveLoopIff: leaves aside loops whose stop by another task has removed the slot and not cancelled the token yet; agents keep their preset.
- AgentTokens.Runtime.PresetStop: is the operation run by itself, with no other stop or cancellation pending; its interleaving with others is in `PresetStopLeavesNoLiveLoopIff`.
- AgentTokens.Preset.Start: is the operation run by itself; which agents exist and are in their initial status is a parameter.
- AgentTokens.Preset.Stop: is the operation run by itself, with no other stop or cancellation pending; its interleaving with others is in `PresetStopLeavesNoLiveLoopIff`.
- PresetNames.Index.AddPresetRaw: is the operation run by itself, without agents and connections; its interleaving is in the runs.
- PresetNames.Index.RenamePreset: is the operation run by itself; its interleaving is in the runs.
- PresetNames.Index.RemovePreset: is the operation run by itself, without stopping and tearing down the agents; its interleaving is in the runs.
- BatchEdit.Runtime.AddAgentsAndConnections: runs without other edits, apart from ids that other tasks take from the counter.
- BatchEdit.Runtime.AddOwnBatch: runs without other edits, apart from ids that other tasks take from the counter.
- BatchEdit.Runtime.AddNextBatch: assumes that no id still to be handed out occurs anywhere, which a preset loaded from a file may violate; `AddOwnBatch` needs it of the drawn ids only.
- McpPool.MCPConnectionPool.ToolCall: is one call by itself; its interleaving with others is in the runs.
- McpPool.MCPConnectionPool.Shutdown: is one shutdown by itself; its interleaving with others is in the runs.
- tokio, mpsc, broadcast, futures and rmcp internals: a `select!` that polls its token first, `buffer_unordered` and locks are steps of the state machines.
- Tool bodies, awaits and calls that never end: loops of `ToolScheduler` end because the awaits they stand for do; the discipline of logs is proved for every prefix.
- A change of the tool registry while `call_tools` runs: the mode of each call is fixed.
- HTTP server, bearer check, tool handlers, process spawning, timestamps, UUIDs, logging, regex tool filters.
- `value.rs`, `llm.rs`, `build_context` and token estimation: field-by-field conversions.
- Matching a late `tool_out` to its `PresetTool` call: the pending table is keyed by context id only, so the code does not decide it.
- Errors of reading an agent's configs, and of an unreadable flow key, end `process` and `configs_changed` before anything changes.
- Counters: generations, ids, event numbers and context ids are unbounded numbers and do not wrap; the iteration count of `LoopControl` does saturate at 2^32-1.
- `abort_context` holds a strong reference to the token for a moment; the model takes and drops it in one step.
- JSON keywords beyond `type`, `properties`, `required`, `items`, `anyOf` and `oneOf` are an arbitrary predicate; `$ref` and `prefixItems` are excluded; parsing of `f64` is a function of the environment.
- The session codec stands for serde's JSON: escaped quoted fields on one line. Files are characters; a cut inside a multi-byte character makes `read_to_string` fail and is not modelled. Session ids are plain file names. `list` is left out.
- A crash during `create` other than a torn header, and I/O errors of the file system.
- Iteration order of the agents map, routing table and name index is not modelled; the order of targets, specs and configs is.
- `remove_agent` keeps the connections of the spec, and loaded specs may hold duplicates, so no equality of routing table and specs is claimed.
- The `dropped` counter and the resolution of preset ids in the event ring.
- External channel names that are written like local ones (`%id/name`) share the table with them.
