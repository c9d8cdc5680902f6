# Verification of the D3D9 bridge

A Dafny model of the logic in the D3D9 interception bridge that can go wrong
silently, with proofs of what it keeps. The bridge stands between a game, an
effect framework and a Direct3D 9 device. The model covers three parts.

**Recording and replaying effect passes.** A recorder writes every state call of
a pass into a byte stream; two recordings that agree under a mask validate a
plan; from then on the pass is replayed without the framework, with constants
from a shadow of the last values set and textures from a texture shadow. All of
it goes through a state journal that undoes every write. `OpStream` is the byte
format, `PassRecording` the recorder and the comparison, `PassReplay` the mask
and its soundness, `PassFidelity` what a replay leaves on a device, `PassLite`
the replay code on mutable plans, `StateJournal` the journal over a device that
may fail, `LiteLifecycle` the hooks and the life of a plan over whole runs.

**Caches and protocols.** `RedundantFilter` compares the state filter with the
bare device, `BatchMachine` coalesces effect transactions, `VulkanHost` binds
passes on hosts, `BindingLookup` is the three-level lookup, `CallPatches`
installs calls in a module's code, `IniEdit` edits two INI files by rules.

**Attribution.** `AdapterRegistry` decides ownership, `Attribution` counts with
saturation, `ModulePath` normalizes paths, `SnapshotReader` reads bounded
configuration files, `ProbeSampler` samples transactions, `CaptureDrain` is the
admission protocol of a capture. `Words`, `Text`, `DeviceState` and
`JournalFlags` are shared by them.

Objects that the bridge updates in place are classes here, with their state in
fields or arrays, and their methods are proved against functions on values; the
theorems are lemmas about those functions or methods over whole runs. What the
bridge cannot decide (the answers of the device, the framework, the operating
system and the plugins) is a parameter of each call or a script of faults, so
every statement holds for all of them.

Six places where the code does not do what its documentation or the natural
reading says, each stated exactly:

- The comment on the op header lists 11 bytes, but as declared it is 16 bytes, five
  of them padding of any content; the model follows the declaration.
- A float range is skipped whole in a replay as soon as the slots it overlaps have
  all been seen, so what it writes beside the slots is lost (`PassFidelity.SkippedRangeIsLost`), and vertex
  sampler textures are never rebound (`PassFidelity.VertexSamplersLost`). When a
  replay is the recorded pass is `PassFidelity.ReplayIsPassIff`; when a register is
  safe whatever constants a pass carries is `PassFidelity.RegisterSafeIff`.
- The redundant-constant filter is exact only on devices with no more float
  registers than it tracks (`RedundantFilter.ExactIff`).
- Three failures leave the batching code with the framework open or called out of
  turn (`BatchMachine.EndLeavesOpen`, `BeginTwice`, `EndTwice`). Which runs lose it
  is `BatchMachine.RunIff`, and under which circumstances none does is
  `BatchMachine.SurvivesIff`.
- A second Begin inside a replay transaction enters the framework behind the
  replay (`LiteLifecycle.BeginAgain`); `LiteLifecycle.Transaction` says when a
  transaction stays out of it.
- Path normalization is not idempotent on every path (`ModulePath.IdempotentIff`).

`dafny verify dfyconfig.toml` checks the whole project.

## Model

| member | source | states |
|---|---|---|
| OpStream.Recording.AppendOp | src/bridge/legacy/EffectInspector.cpp:671-684 | one append: the header and the payload go to the end, or nothing exactly when the payload is over 65535 bytes or the stream over 1 MiB |
| OpStream.ParseIffHolds | src/bridge/legacy/EffectInspector.cpp:877-909 | the parse loop accepts a byte stream with a list of ops exactly when the stream is those ops one behind the other with nothing left over |
| OpStream.ParseAppended | src/bridge/legacy/EffectInspector.cpp:671-684 | appending one op to any complete stream adds exactly that op to its parse, whatever bytes the header's padding holds |
| OpStream.RecordingDecodes | src/bridge/legacy/EffectInspector.cpp:663-684 | every stream built by appends from empty parses completely and decodes to exactly the ops kept, in order, and never exceeds 2^20 + 16 + 0xFFFF bytes |
| OpStream.KeepsAllIff | src/bridge/legacy/EffectInspector.cpp:671-684 | no op is lost exactly when every payload fits 16 bits and the stream is not over the limit when the last op arrives |
| DeviceState.NoPlaceIff | src/bridge/legacy/ProperShadersStateJournal.cpp:440-1013 | the journal's tables have no place exactly for render states above 255, pixel stages above 15 that are no vertex sampler, texture stages above 7, sampler states above 15 and ranges beyond 256, 224 or 16 registers |
| DeviceState.CellsApart | src/bridge/legacy/ProperShadersStateJournal.cpp:440-1013 | two calls write a common cell of the device exactly when they set the same state: same kind and same indices, or overlapping ranges of one file |
| PassRecording.DecodeEncodeIff | src/bridge/legacy/EffectInspector.cpp:688-833 | the replay decoder reads back the very call that the recorder wrote down, for every state call, exactly when the two words packed into one for stage and sampler states hold |
| PassRecording.PayloadSizes | src/bridge/legacy/EffectInspector.cpp:688-833 | the payload of an op has the size of the interface's block: 64, 68 and 104 bytes, 4 for a pointer or a float, 16 for a register of numbers, 4 for a truth value, and none otherwise; words that a call does not need are zero |
| PassRecording.SameOpIff | src/bridge/legacy/EffectInspector.cpp:842-909 | two ops match exactly when code, both header words and payload length are the same and the payload is too, unless it is a texture's or that of a float range which shares a register with a slot of its file, counted in wrapping 32-bit words |
| PassRecording.IntersectsPlanSlots | src/bridge/legacy/EffectInspector.cpp:843-853 | the slot loop answers whether some plan slot overlaps the register range |
| PassRecording.IntersectsIff | src/bridge/legacy/EffectInspector.cpp:843-853 | its answer is true exactly when a slot of the same shader file shares a register with the range |
| PassRecording.RecordingsAgree | src/bridge/legacy/EffectInspector.cpp:877-909 | the two-stream comparison loop computes the decision procedure on byte offsets |
| PassRecording.AgreeFromIff | src/bridge/legacy/EffectInspector.cpp:877-909 | that decision is agreement: both streams parse completely and their ops match one by one, masked constants compared by header alone |
| PassRecording.AgreeIsEquivalence | src/bridge/legacy/EffectInspector.cpp:877-909 | agreement is symmetric and transitive, and reflexive exactly on complete streams |
| PassRecording.RecordedAgreeIff | src/bridge/legacy/EffectInspector.cpp:877-909 | two recordings made by the recorder agree exactly when the ops they kept match pointwise modulo the mask |
| PassReplay.HiddenSound | src/bridge/legacy/EffectInspector.cpp:842-909 | two ops that match under the mask replay as the same call when the mask is hidden by seen shadow values |
| PassReplay.ExposedLeaks | src/bridge/legacy/EffectInspector.cpp:842-909 | a masked constant that replay does not hide can be altered so that the recordings still match and the replayed calls differ |
| PassReplay.MaskSoundIff | src/bridge/legacy/EffectInspector.cpp:842-909 | the mask is sound for a recording exactly when every masked constant of it is hidden by a seen value |
| PassReplay.MaskSoundness | src/bridge/legacy/EffectInspector.cpp:1212-1338 | two byte streams that agree put every device into the same state when replayed with the same shadows and stage table, if each overlapped plan slot has a seen value |
| PassFidelity.OtherKeysExact | src/bridge/legacy/EffectInspector.cpp:1212-1338 | every key that is neither a float constant nor a texture gets from the replay the last write the recorded pass made to it |
| PassFidelity.SeenRegisters | src/bridge/legacy/EffectInspector.cpp:540-631 | a register of a seen slot ends with the slot's encoding of the latest shadow value |
| PassFidelity.OtherRegisters | src/bridge/legacy/EffectInspector.cpp:1212-1338 | a float register outside the seen slots ends as the pass left it exactly when the last repeated range that wrote it gave it the value of the last range of all |
| PassFidelity.RegisterSafeIff | src/bridge/legacy/EffectInspector.cpp:842-872 | it does so whatever constants the same calls carry exactly when the last range that writes the register is not skipped, which the op headers decide |
| PassFidelity.SkippedRangeIsLost | src/bridge/legacy/EffectInspector.cpp:855-872 | the condition is not idle: a concrete pass writes a register beside a seen slot and the replay never writes it |
| PassFidelity.LearntRebinds | src/bridge/legacy/EffectInspector.cpp:1182-1207 | with distinct parameters in the texture shadow, what is learnt for a stage rebinds the very texture it was learnt from |
| PassFidelity.LearnsLastBinding | src/bridge/legacy/EffectInspector.cpp:1182-1207 | the stage table keeps for each of the 16 pixel stages what its last binding in the recording says |
| PassFidelity.DynamicFollows | src/bridge/legacy/EffectInspector.cpp:1182-1333 | if the last texture recorded for a stage was in the texture shadow at validation, then under any later shadow the replay binds what the first parameter that held it holds now, or null if that parameter is gone |
| PassFidelity.StaticStays | src/bridge/legacy/EffectInspector.cpp:1182-1333 | any other bound stage gets the recorded texture, whatever the texture shadow has come to hold |
| PassFidelity.UnboundStays | src/bridge/legacy/EffectInspector.cpp:1182-1333 | a stage that the recording never bound is not bound by a replay |
| PassFidelity.TexturesExact | src/bridge/legacy/EffectInspector.cpp:1182-1338 | with the texture shadow as it was at validation, each pixel stage ends with the binding the recorded pass made last |
| PassFidelity.VertexSamplersLost | src/bridge/legacy/EffectInspector.cpp:1212-1338 | the four vertex sampler textures are never rebound by a replay |
| PassFidelity.SameOnEveryDeviceIff | src/bridge/legacy/EffectInspector.cpp:1212-1338 | two call lists leave a key the same on every device exactly when their last writes to it agree |
| PassFidelity.ReplayIsPassIff | src/bridge/legacy/EffectInspector.cpp:1212-1338 | from bytes to device: a replay of a kept recording leaves every device exactly as the recorded pass does if and only if the shadow holds what the pass uploaded, no vertex sampler texture is left bound and every float register outside the seen slots keeps its value |
| PassFidelity.ReplayIsPass | src/bridge/legacy/EffectInspector.cpp:1212-1338 | in particular it does whenever no range is skipped that is the last to write such a register |
| PassLite.FillSlot | src/bridge/legacy/EffectInspector.cpp:540-567 | the upload of one slot built in a word buffer, transposed or copied, is the slot's encoding of the shadow value, which UploadShows spells out |
| PassLite.UploadShows | src/bridge/legacy/EffectInspector.cpp:540-567 | on a device that accepts it the upload of a parameter leaves in register base+r of its last slot there words r, 4+r, 8+r, 12+r of a matrix for a slot of columns, words 4r to 4r+3 for one of rows, and any other data in order, padded with zero |
| PassLite.EffectPlans.ShadowTexture | src/bridge/legacy/EffectInspector.cpp:1340-1354 | parameters stay unique, the table stays within its limit, only the given parameter changes, and it changes exactly when there is room or it is there already |
| PassLite.StoreShadow | src/bridge/legacy/EffectInspector.cpp:585-602 | the value of a parameter is stored exactly when it is there already or there is room, and no other parameter changes |
| PassLite.HandleSet | src/bridge/legacy/EffectInspector.cpp:569-613 | a set is taken exactly when the parameter is one of the plan's, all its slots have at most four registers, there are 1 to 16 words and the shadow has it or has room for it; the shadow then holds the value; and inside a transaction the parameter's registers show the words passed in, by columns, by rows or in order, and the device stays in step with what a replay of the shadow would write |
| PassLite.SeenUpdated | src/bridge/legacy/EffectInspector.cpp:569-631 | after a set, replaying the shadow writes to each register what this parameter's upload writes, or else what it wrote before |
| PassLite.ReplaySeen | src/bridge/legacy/EffectInspector.cpp:615-631 | the seen slots are submitted in order, as the given part of a pending run of calls |
| PassLite.SeenInSync | src/bridge/legacy/EffectInspector.cpp:615-631 | after replaying the shadow every register of a seen slot holds the latest value |
| PassLite.CoveredBySeenShadow | src/bridge/legacy/EffectInspector.cpp:855-872 | the loop answers whether the range is overlapped by slots and every overlapping one has a seen value |
| PassLite.ApplyPassLite | src/bridge/legacy/EffectInspector.cpp:1212-1338 | the replay loop leaves the journal able to undo everything whatever fails, and on a device that accepts the calls produces exactly the replay's final state |
| PassLite.SetAndReplay | src/bridge/legacy/EffectInspector.cpp:569-1338 | after any row of sets, inside a transaction or not, and a replay on a device that accepts it, every register of a parameter shows the words it was last set to: by columns, by rows, or in order and padded with zero |
| PassLite.ReplayTransaction | src/bridge/legacy/EffectInspector.cpp:1212-1338 | a replay in a transaction puts a sound device into the replay's final state, and the restore that follows leaves it, if it reports success, as it was before |
| PassLite.LearnStages | src/bridge/legacy/EffectInspector.cpp:1182-1207 | the stage table learnt from the visited ops of a byte stream, which DynamicFollows, StaticStays and UnboundStays of PassFidelity say the meaning of |
| StateJournal.Capture | src/bridge/legacy/ProperShadersStateJournal.cpp:409-438 | the range is refused exactly when it leaves the file; otherwise each register not saved yet is saved with its present value, and nothing saved is overwritten |
| StateJournal.WriteBack | src/bridge/legacy/ProperShadersStateJournal.cpp:1015-1163 | a success puts every saved register back; registers not saved are not touched either way |
| StateJournal.Journal.StartGeneration | src/bridge/legacy/ProperShadersStateJournal.cpp:338-384 | a new generation forgets every saved value, also when the counter wraps |
| StateJournal.Journal.BeginTransaction | src/bridge/legacy/ProperShadersStateJournal.cpp:172-222 | succeeds exactly for a known thread on a journal that is neither disabled nor open; fails otherwise with the code of its case and changes nothing, but a nested begin disables the journal and puts the device back |
| StateJournal.Journal.Write | src/bridge/legacy/ProperShadersStateJournal.cpp:440-1013 | in a transaction a call reaches the device exactly when it succeeds, the value of a key is saved before its first overwrite, and the first call that fails, because of its bounds, the thread or the device, leaves its error behind; outside a transaction every call is forwarded and the device decides |
| StateJournal.Journal.Restore | src/bridge/legacy/ProperShadersStateJournal.cpp:1015-1163 | a restore that reports success puts the device back to the state at the begin; one that fails disables the journal and leaves its error, unless there was one before; on the right thread and a sound device it never fails |
| StateJournal.AllBack | src/bridge/legacy/ProperShadersStateJournal.cpp:1015-1163 | when every saved value is back the device is the snapshot, even though only first overwrites were saved |
| StateJournal.Transaction | src/bridge/legacy/ProperShadersStateJournal.cpp:172-1163 | any run of state calls on a device that may refuse any of them: if the restore reports success the device is as if nothing had happened |
| LiteLifecycle.Advance | src/bridge/legacy/EffectInspector.cpp:1130-1210 | the plan state machine at the end of a recording |
| LiteLifecycle.Bridge.PassAction | src/bridge/legacy/EffectInspector.cpp:1080-1093 | replay only in state 2, record only in states 0 and 1, and only for eligible plans |
| LiteLifecycle.Bridge.BeginRecording | src/bridge/legacy/EffectInspector.cpp:1095-1117 | the shared recorder is taken only when free and the framework accepts it, for the recording that is next; otherwise nothing is held |
| LiteLifecycle.Bridge.EndRecording | src/bridge/legacy/EffectInspector.cpp:1130-1210 | the recorder is closed, the binding stops recording, the plan moves on, and what the plan then holds is exactly the ops taken since the recorder was opened |
| LiteLifecycle.RecordingIsTaken | src/bridge/legacy/EffectInspector.cpp:1130-1210 | an ended recording, first or second, holds exactly the writes taken since it was opened |
| LiteLifecycle.Bridge.Begin | src/bridge/legacy/BridgeD3D9.cpp:1327-1490 | the effect replays afterwards exactly when it did before or a transaction begins for an eligible plan of its technique in state 2, and then no framework call is made; it records exactly when it did before or such a plan is in state 0 or 1, the recorder is free and taken up and the framework's Begin does not fail; every lifecycle invariant is kept |
| LiteLifecycle.BeginReplaysIff | src/bridge/legacy/BridgeD3D9.cpp:1327-1434 | the condition for a replay on the state before Begin, both ways; a replay touches neither frameworks nor plans nor recorder |
| LiteLifecycle.BeginRecordsIff | src/bridge/legacy/BridgeD3D9.cpp:1327-1490 | the condition for a recording on the state before Begin, both ways |
| LiteLifecycle.BeginCalls | src/bridge/legacy/BridgeD3D9.cpp:1327-1490 | the framework calls of Begin in every case: none for a replay or a refusal that leaves the journal failed, one Begin where no transaction can begin, otherwise one Begin, and End and Begin again when it fails inside the transaction |
| LiteLifecycle.BeginFlags | src/bridge/legacy/BridgeD3D9.cpp:1327-1490 | a transaction that can begin is open afterwards exactly when it is replayed or capture and call succeed, and is given up otherwise; a journal that is not asked for is left alone, one that a second Begin finds open is given up, and a refusal disables it exactly when it has failed |
| LiteLifecycle.UndoneBeginBars | src/bridge/legacy/BridgeD3D9.cpp:1436-1490 | a recording whose Begin has to be undone bars its plan |
| LiteLifecycle.Bridge.BeginPass | src/bridge/legacy/BridgeD3D9.cpp:783-831 | keeps the invariants; in a replay transaction the calls of the plan's recorded pass are submitted and the framework is not entered; in a plain one the seen values are uploaded after the framework's BeginPass |
| LiteLifecycle.BeginPassCalls | src/bridge/legacy/BridgeD3D9.cpp:783-831 | the framework calls of BeginPass in every case: none in a replay, one BeginPass otherwise, and the calls that begin the pass again without the journal when it fails in a transaction or its capture does not begin |
| LiteLifecycle.BeginPassFlags | src/bridge/legacy/BridgeD3D9.cpp:783-831 | the transaction lives on exactly when capture, call and restore succeed; otherwise the journal is given up |
| LiteLifecycle.Bridge.CommitChanges | src/bridge/legacy/BridgeD3D9.cpp:833-855 | keeps the invariants; in a replay transaction nothing happens |
| LiteLifecycle.CommitCalls | src/bridge/legacy/BridgeD3D9.cpp:833-855 | the framework calls of CommitChanges in every case |
| LiteLifecycle.CommitFlags | src/bridge/legacy/BridgeD3D9.cpp:833-855 | the transaction lives on exactly when nothing has failed; otherwise the journal is given up |
| LiteLifecycle.Bridge.EndPass | src/bridge/legacy/BridgeD3D9.cpp:857-875 | keeps the invariants; in a replay transaction the framework is not entered |
| LiteLifecycle.EndPassCalls | src/bridge/legacy/BridgeD3D9.cpp:857-875 | EndPass enters the framework exactly when the effect does not replay |
| LiteLifecycle.Bridge.End | src/bridge/legacy/BridgeD3D9.cpp:1492-1558 | afterwards the effect neither replays nor records, its state manager is not the recorder and the recorder does not serve it, also when BeginPass never came |
| LiteLifecycle.EndCalls | src/bridge/legacy/BridgeD3D9.cpp:1492-1558 | End enters the framework exactly when the effect does not replay and, inside a transaction, the capture begins |
| LiteLifecycle.EndFlags | src/bridge/legacy/BridgeD3D9.cpp:1492-1558 | End closes the transaction and gives the journal up exactly when it was, or something has failed: before, in the framework's End or in the restore |
| LiteLifecycle.FailedRecordingBars | src/bridge/legacy/EffectInspector.cpp:1130-1210 | a recording whose BeginPass fails, or that is not ended by the time of End, bars its plan for good |
| LiteLifecycle.Bridge.RestartBaselinePass | src/bridge/legacy/BridgeD3D9.cpp:2660-2704 | giving up a journal inside a pass makes the calls EndPass and End, and Begin and BeginPass again if the restore succeeds, and keeps the use the binding makes of its plan |
| LiteLifecycle.Bridge.Release | src/bridge/legacy/BridgeD3D9.cpp:1241-1297 | with the last reference the recorder never keeps the dead journal; an effect without a journal closes the recorder of another effect too |
| LiteLifecycle.ValidatedReplay | src/bridge/legacy/EffectInspector.cpp:877-909 | a plan in state 2 replays alike from either recording |
| LiteLifecycle.UndisturbedRecords | src/bridge/legacy/BridgeD3D9.cpp:783-1558 | a whole transaction in which nothing fails, on an eligible plan that is not validated, makes the calls Begin, BeginPass, EndPass and End and leaves in the plan exactly what the framework wrote in Begin and BeginPass |
| LiteLifecycle.ThirdReplaysIff | src/bridge/legacy/BridgeD3D9.cpp:783-1558 | two such transactions from an unrecorded plan make the third Begin replay exactly when the kept ops of the two recordings match one by one but for masked constants; the plan then holds the first recording and the stages learnt from it, and otherwise is barred |
| LiteLifecycle.RunKeeps | src/bridge/legacy/BridgeD3D9.cpp:783-1558 | any run of events keeps the invariants and what RunEvents says of plans |
| LiteLifecycle.RunEvents | src/bridge/legacy/BridgeD3D9.cpp:783-1558 | the hooks do in any run of events on any effects what the run's functions say, no plan's state goes back, a settled first recording is never touched, and a validated plan stays as it was |
| LiteLifecycle.BeginAgain | src/bridge/legacy/BridgeD3D9.cpp:1327-1380 | a second Begin on an effect that replays leaves the replay as it is, and begins the framework behind its back exactly when it asks for no journal, finds the journal given up, or the refusal leaves it unfailed |
| LiteLifecycle.InsideReplay | src/bridge/legacy/BridgeD3D9.cpp:783-1558 | whatever happens on any effects while one replays, its passes submit the plan's recorded pass and nothing else, and the plan and the binding's use of it stay |
| LiteLifecycle.Transaction | src/bridge/legacy/BridgeD3D9.cpp:783-1558 | a whole transaction, other effects' events and further Begins on the same effect inside it: it replays exactly when it can begin for an eligible plan of the technique in state 2; then the device gets exactly the replays of its validated plan and the framework is never entered for the effect exactly when no second Begin goes through to it; at the end nothing of the transaction is left |
| LiteLifecycle.ReplayedIsPassIff | src/bridge/legacy/EffectInspector.cpp:1212-1338 | what a transaction submits for a pass of a plan with a kept recording does to every device what the recorded pass does, exactly when the shadow is current, no vertex sampler was bound and no register is lost |
| RedundantFilter.TrackFloatConstants | src/bridge/legacy/BridgeD3D9.cpp:8266-8294 | the in-place loop notes what differs and reports redundancy exactly when every register of a tracked range was seen with the same bits |
| RedundantFilter.Wrapper.SetShader | src/bridge/legacy/BridgeD3D9.cpp:8110-8190 | one shader call through the wrapper is the filter's step: cache, device state and answer |
| RedundantFilter.Wrapper.SetFloats | src/bridge/legacy/BridgeD3D9.cpp:8131-8219 | one constant call through the wrapper is the filter's step: cache, device state and answer, failed calls included |
| RedundantFilter.Wrapper.Flush | src/bridge/legacy/BridgeD3D9.cpp:7889-7940 | Present and Reset forget the cache and pass the call on |
| RedundantFilter.Wrapper.ResetTrackedState | src/bridge/legacy/BridgeD3D9.cpp:9511-9521 | every seen mark is cleared |
| RedundantFilter.RunRefines | src/bridge/legacy/BridgeD3D9.cpp:8110-8294 | any run through the filter gives the device state and all answers of the same run on the bare device, and keeps the cache in step, when the device has no more float registers than are tracked or no constant is dropped |
| RedundantFilter.StraddleDiffers | src/bridge/legacy/BridgeD3D9.cpp:8275-8283 | when the device has more registers, a range that starts tracked and ends beyond goes unnoticed and a later write is wrongly dropped: a concrete run tells filter and device apart |
| RedundantFilter.ExactIff | src/bridge/legacy/BridgeD3D9.cpp:8110-8294 | the filter cannot be told from the device by any run exactly when it drops no constants or the device has at most 256 and 224 float registers |
| RedundantFilter.RunFiltered | src/bridge/legacy/BridgeD3D9.cpp:8110-8294 | a run through a new wrapper object has the answers and the final state of the run on the bare device |
| RedundantFilter.FloatsDroppedIff | src/bridge/legacy/BridgeD3D9.cpp:8192-8294 | a constant call is answered without the device exactly when dropping is on and each register of a range within the 256 or 224 tracked ones has been seen with these bits |
| RedundantFilter.SecondFloatsAreDropped | src/bridge/legacy/BridgeD3D9.cpp:8192-8294 | constants that have just been answered with success are dropped when they come again at once, and nothing changes |
| RedundantFilter.SecondShaderIsDropped | src/bridge/legacy/BridgeD3D9.cpp:8110-8190 | and so is a shader |
| RedundantFilter.ShaderDroppedIff | src/bridge/legacy/BridgeD3D9.cpp:8110-8190 | a shader call is answered without the device exactly when dropping is on and the shader is the one last seen on its pipe |
| RedundantFilter.FailureForgets | src/bridge/legacy/BridgeD3D9.cpp:8110-8219 | a shader or constant call that fails leaves no shader and no register marked as seen |
| BatchMachine.EvaluateBatchStart | src/bridge/legacy/ProperShadersBatchPolicy.h:1-48 | a batch is opened exactly when all nine facts hold, the pass count being one |
| BatchMachine.BegunOutcome | src/bridge/legacy/BridgeD3D9.cpp:2124-2193 | a Begin on a closed framework leaves it open for the effect, or closed if it reports failure, unless a transaction was taken whose capture does not end |
| BatchMachine.PassBegunOutcome | src/bridge/legacy/BridgeD3D9.cpp:2660-2729 | a BeginPass leaves the framework in the pass, or closed if it reports failure, which it does exactly when a transaction is live, the pass fails in it and its restore fails |
| BatchMachine.CommittingOutcome | src/bridge/legacy/BridgeD3D9.cpp:2660-2809 | a commit inside a transaction costs one call, or none when the constants go directly; it leaves the pass, closed, exactly when it fails and the restore fails too |
| BatchMachine.EndedOutcome | src/bridge/legacy/BridgeD3D9.cpp:2824-2897 | an End makes the framework's End and closes it exactly when the restore's capture begins or there is no live journal; otherwise it makes no call |
| BatchMachine.FlushedOutcome | src/bridge/legacy/BridgeD3D9.cpp:2899-2935 | closing an active batch makes EndPass and End, in that order, and forgets it, exactly when the capture at the End begins |
| BatchMachine.TechniqueOutcome | src/bridge/legacy/BridgeD3D9.cpp:2937-2979 | a SetTechnique with no batch open costs one call and is remembered; with a batch open the same technique keeps it and another closes it first |
| BatchMachine.JoiningOutcome | src/bridge/legacy/BridgeD3D9.cpp:2995-3223 | an object that matches the open batch costs one commit, and EndPass and End only when no object is left |
| BatchMachine.OpeningOutcome | src/bridge/legacy/BridgeD3D9.cpp:2995-3223 | an object that opens a batch costs Begin and BeginPass while others are still to come |
| BatchMachine.Batcher.OptimizedEnd | src/bridge/legacy/BridgeD3D9.cpp:2824-2897 | an object's End, capture, framework call and restore, takes framework and journals to the state that EndedOutcome is about |
| BatchMachine.Batcher.Flush | src/bridge/legacy/BridgeD3D9.cpp:2899-2935 | an active batch is closed and forgotten, an idle one costs no call: the new state is the one that FlushedOutcome is about |
| BatchMachine.Batcher.SetTechniqueForBatch | src/bridge/legacy/BridgeD3D9.cpp:2937-2979 | no call is made exactly when the batch that is open is on this path, of this effect and with this technique, and the framework knows the effect by it; otherwise the batch is flushed and the real SetTechnique made: the new state is the one that TechniqueOutcome is about |
| BatchMachine.TechniqueNames | src/bridge/legacy/BridgeD3D9.cpp:2937-2979 | after a technique is asked for the last SetTechnique of the effect in the calls is that one, of every other effect it stays, nothing is drawn, and no call is made exactly when it was in use in the open batch of the path |
| BatchMachine.Batcher.BeginForBatch | src/bridge/legacy/BridgeD3D9.cpp:2995-3062 | a Begin costs no call exactly when batching is on and saving of state is off, the open batch is of this effect, path and flags and its transaction is alive; any other flushes first: state, answer and number of passes are those that JoiningOutcome and OpeningOutcome are about |
| BatchMachine.Batcher.FinishLoop | src/bridge/legacy/BridgeD3D9.cpp:3164-3186 | with objects still to come the batch stays open without a call, with none left or an unknown number it is flushed, and an object outside a batch is ended |
| BatchMachine.EventOutcome | src/bridge/legacy/BridgeD3D9.cpp:2899-3223 | from any state between transactions one client event leaves such a state exactly when the guards of the failing branches say so, and otherwise loses the framework |
| BatchMachine.RunIff | src/bridge/legacy/BridgeD3D9.cpp:2899-3223 | a run of client events, each in a world of its own, loses the framework at some point exactly when one of its events is not safe where it comes |
| BatchMachine.SurvivesIff | src/bridge/legacy/BridgeD3D9.cpp:2899-3223 | no run in a world loses the framework exactly when a predicate on that world alone holds: captures of transactions taken there end, and where they last either failing passes can be restored or the captures at the End begin and a failing commit can be restored |
| BatchMachine.RunClient | src/bridge/legacy/BridgeD3D9.cpp:2899-3223 | the object itself over any row of techniques and objects: the calls made are those of the run, nothing is drawn but with the technique last asked for, the framework is never called out of turn exactly as long as the events are safe, and only an active batch is left open |
| BatchMachine.RunNames | src/bridge/legacy/BridgeD3D9.cpp:2899-3223 | in any run, safe or not, every Begin, BeginPass and Commit belongs to an object of its effect and comes while the last SetTechnique of the effect in the calls is the technique the client last asked for |
| BatchMachine.DrawLoop | src/bridge/legacy/BridgeD3D9.cpp:2937-3186 | a loop of n objects of one effect and technique makes exactly one SetTechnique, one Begin, one BeginPass, n-1 commits, one EndPass and one End |
| BatchMachine.BreaksNext | src/bridge/legacy/BridgeD3D9.cpp:2937-2979 | once the framework is lost the client's next SetTechnique is out of turn |
| BatchMachine.EndLeavesOpen | src/bridge/legacy/BridgeD3D9.cpp:2824-2897 | after an End the next Begin of any effect is out of turn exactly when the journal was live and its restore's capture does not begin |
| BatchMachine.BeginTwice | src/bridge/legacy/BridgeD3D9.cpp:2124-2193 | a Begin leaves the framework otherwise than it reports exactly when a transaction is taken and its capture does not end |
| BatchMachine.EndTwice | src/bridge/legacy/BridgeD3D9.cpp:2660-2729 | the EndPass a client owes after BeginPass is out of turn exactly when the journal is live, the pass fails and its restore fails too |
| VulkanHost.Host.RegisterPassOnHost | src/bridge/legacy/BridgeD3D9.cpp:3948-3977 | binds a pass on a working host once, keeping every other pass as it was |
| VulkanHost.Host.Attach | src/bridge/legacy/BridgeD3D9.cpp:4001-4057 | a new host is at work with every registered pass bound, if its device supports it |
| VulkanHost.Host.Suspend | src/bridge/legacy/BridgeD3D9.cpp:4059-4072 | the host's bindings go, its place stays |
| VulkanHost.Host.Resume | src/bridge/legacy/BridgeD3D9.cpp:4074-4087 | the host is at work again with every pass bound |
| VulkanHost.Host.Detach | src/bridge/legacy/BridgeD3D9.cpp:4089-4108 | the host goes with its bindings |
| VulkanHost.Host.RegisterPass | src/bridge/legacy/BridgeD3D9.cpp:4131-4166 | refusals change nothing and give token 0; a registered pass gets the next token and is bound on every host at work |
| VulkanHost.Host.UnregisterPass | src/bridge/legacy/BridgeD3D9.cpp:4168-4188 | InvalidCall exactly inside a record call or for token 0, AccessDenied exactly for a plugin that is not loaded, Done exactly when some pass of the plugin carries the token, and otherwise NotFound; Done destroys exactly the passes that do, bindings first, and any other answer changes nothing |
| VulkanHost.Host.UnloadPlugin | src/bridge/legacy/BridgeD3D9.cpp:4190-4197 | exactly the plugin's passes are destroyed, bindings first |
| VulkanHost.TokensGoodIff | src/bridge/legacy/BridgeD3D9.cpp:4131-4166 | tokens are nonzero and never reused exactly until 2^64 have been given out |
| VulkanHost.Run | src/bridge/legacy/BridgeD3D9.cpp:3948-4197 | in any run no binding names a detached or suspended host and no pass is bound twice to one host; while devices answer well, bindings are exactly passes times working hosts, mirrored by the devices' live entries; a pass that nobody takes away stays; and until the tokens wrap plugins, hosts and passes with owner and token are those that the events give on paper, whatever the devices answer |
| VulkanHost.HandBack | src/bridge/legacy/BridgeD3D9.cpp:3948-4197 | a token given by RegisterPass and neither unregistered nor unloaded in any run since is taken back with Done: the pass is gone from the bridge, no pass carries the token, and with sound devices no device holds it; the books are those of the whole run |
| VulkanHost.RefusalDangles | src/bridge/legacy/BridgeD3D9.cpp:3979-3999 | a device that refuses to let a pass go keeps an entry the bridge has forgotten, which outlives the pass |
| BindingLookup.LookupIsAnswer | src/bridge/legacy/BridgeD3D9.cpp:645-672 | last hit, thread list and registry together give the registry's answer on every thread |
| BindingLookup.StaleUntilBuried | src/bridge/legacy/ProperShadersEffectBindingCache.h:9-24 | without the tombstone they would not: a thread would be told of a binding the registry has dropped |
| BindingLookup.Bindings.Find | src/bridge/legacy/BridgeD3D9.cpp:645-672 | the lookup answers as the registry and changes only the thread's caches: what it finds is the last hit from then on, nothing changes when it was already, and what was found in the registry joins the thread's list if there is room |
| BindingLookup.Bindings.Acquire | src/bridge/legacy/BridgeD3D9.cpp:1110-1239 | a binding is published before its hooks and withdrawn if they fail, which leaves no trace; registry and answer are those of a bridge without caches |
| BindingLookup.Bindings.Release | src/bridge/legacy/BridgeD3D9.cpp:1252-1297 | with the last reference the registry loses the effect and the binding is buried, so that no cache can answer with it |
| BindingLookup.Run | src/bridge/legacy/BridgeD3D9.cpp:645-1297 | any interleaving of lookups, acquisitions and releases by any threads, addresses reused, gives every answer the registry alone would have given |
| CallPatches.CallReachesTarget | src/bridge/legacy/BridgeD3D9.cpp:3485-3495 | for every pair of 32-bit addresses the six bytes written are a call whose signed displacement leads to the replacement, followed by 0x90 |
| CallPatches.CallsLead | src/bridge/legacy/BridgeD3D9.cpp:3477-3508 | each patch's bytes lead from its own site to its own replacement |
| CallPatches.FindFirstMismatch | src/bridge/legacy/ProperShadersPatchValidation.h:36-45 | the index of the first site whose bytes differ from the expected ones, or the number of sites |
| CallPatches.Patches.WriteCallPatch | src/bridge/legacy/BridgeD3D9.cpp:3477-3508 | one site is written exactly when its bytes are the expected ones and its page can be made writable; the replaced bytes are saved |
| CallPatches.Patches.Restore | src/bridge/legacy/BridgeD3D9.cpp:3510-3531 | standing patches are put back in reverse order where the page can be made writable, and all are marked as gone |
| CallPatches.Patches.Install | src/bridge/legacy/BridgeD3D9.cpp:3533-3595 | refused before the first byte on a bad image, bound or signature; otherwise all sites are written, or it stops at the first that cannot be and takes back what was written |
| CallPatches.RestoreUndoes | src/bridge/legacy/BridgeD3D9.cpp:3510-3531 | restoring in reverse undoes any prefix of the writes, even where sites overlap |
| CallPatches.WrittenElsewhere | src/bridge/legacy/BridgeD3D9.cpp:3477-3508 | no byte outside the sites is touched |
| CallPatches.InstalledSite | src/bridge/legacy/BridgeD3D9.cpp:3533-3595 | on sites that do not overlap each site holds its own call after a complete installation |
| CallPatches.WritableIff | src/bridge/legacy/BridgeD3D9.cpp:3477-3483 | on such sites the signature check at write time never fails after the preflight, so only a locked page can stop an installation |
| CallPatches.NothingLeftIff | src/bridge/legacy/BridgeD3D9.cpp:3510-3531 | a failed installation leaves the module's bytes unchanged exactly when every page that was written could be made writable again |
| CallPatches.InstallAndRestore | src/bridge/legacy/BridgeD3D9.cpp:3510-3595 | install and restore, in either outcome, give back the module's bytes when the restore may write |
| CallPatches.ShippedSitesAreDisjoint | src/bridge/legacy/BridgeD3D9.cpp:3283-3318 | the offsets the bridge patches do not overlap |
| IniEdit.WantedReadsBack | src/bridge/legacy/BridgeD3D9.cpp:6021-6044 | the line built for a key is no header, assigns that key, and is commented out exactly when disabled |
| IniEdit.WantedValue | src/bridge/legacy/BridgeD3D9.cpp:6021-6044 | what stands behind the "=" of that line is the value, without the blanks around it |
| IniEdit.Scan | src/bridge/legacy/BridgeD3D9.cpp:6046-6073 | one pass finds whether the section is there and either the key's line or the place behind the section's last line |
| IniEdit.IniFile.SetIniKey | src/bridge/legacy/BridgeD3D9.cpp:6046-6089 | the file becomes the edited file, and a change is reported exactly when its lines differ |
| IniEdit.EditAnswers | src/bridge/legacy/BridgeD3D9.cpp:6046-6089 | after an edit the first setting of the key is the wanted line, or there is none when it was disabled and absent, and all further settings are as before |
| IniEdit.EditOthers | src/bridge/legacy/BridgeD3D9.cpp:6046-6089 | every other key of the file reads as before, to a reader and to the editor |
| IniEdit.EditKeepsOtherLines | src/bridge/legacy/BridgeD3D9.cpp:6046-6089 | every other line stays, in order: one line of the key is replaced, one line is put in, or a section is added at the end |
| IniEdit.SectionOpened | src/bridge/legacy/BridgeD3D9.cpp:6077-6086 | a section that is missing is opened behind the last line for a live key, with a blank line before it unless there is one or the file is empty, and not at all for a dead one |
| IniEdit.EditIdleIff | src/bridge/legacy/BridgeD3D9.cpp:6046-6089 | an edit leaves the file alone exactly when the key already stands as asked |
| IniEdit.EditIdempotent | src/bridge/legacy/BridgeD3D9.cpp:6046-6089 | the same edit twice is the same edit once |
| IniEdit.ApplyRules | src/bridge/legacy/BridgeD3D9.cpp:6192-6201 | the rule loop applies one edit per rule to each file and reports a change exactly when some edit made one |
| IniEdit.EditAllAnswers | src/bridge/legacy/BridgeD3D9.cpp:6192-6201 | edits of different keys do not undo each other: each key ends as if its edit were the only one |
| IniEdit.AnyEditIff | src/bridge/legacy/BridgeD3D9.cpp:6192-6201 | a file is reported changed exactly when its lines in the end differ |
| IniEdit.SecondRunIsIdle | src/bridge/legacy/BridgeD3D9.cpp:6192-6201 | a second run with the same decision changes neither file |
| IniEdit.OneOwnerIff | src/bridge/legacy/BridgeD3D9.cpp:6192-6201 | each limit is live in its owner's file, and in that one alone exactly when the other file has no live line for it besides the one the editor finds |
| IniEdit.OwnersLines | src/bridge/legacy/BridgeD3D9.cpp:6192-6201 | for each limit the line left in either file has the rule's own key and value for that file, live in the second adjuster's exactly when it is preferred there and preferred at all, and live in the first one's otherwise |
| IniEdit.NoDuplicateNoStray | src/bridge/legacy/BridgeD3D9.cpp:6046-6089 | a file that sets the key at most once, where the editor looks, has no such line |
| IniEdit.ShippedRulesAreGood | src/bridge/legacy/BridgeD3D9.cpp:6163-6182 | the shipped rules have well-formed names and a key of their own in each file |
| AdapterRegistry.SortStable | src/bridge/legacy/PerformanceAdapters.cpp:381-400 | the sort keeps definitions of equal registration order in input order |
| AdapterRegistry.KeptAndDropped | src/bridge/legacy/PerformanceAdapters.cpp:381-480 | kept adapters and those warned of as duplicates account for every definition |
| AdapterRegistry.KeptUnique | src/bridge/legacy/PerformanceAdapters.cpp:381-480 | kept names differ without regard to case, the order stays, and every name is kept once |
| AdapterRegistry.FirstClaimIsLeast | src/bridge/legacy/PerformanceAdapters.cpp:138-163 | the claim on a token belongs to the claiming adapter of least registration order |
| AdapterRegistry.ClaimAll | src/bridge/legacy/PerformanceAdapters.cpp:138-163 | the claim map gains exactly the tokens that were free, and there is one warning for each taken token, in order, that names the adapter and the one that has it |
| AdapterRegistry.Registry.constructor | src/bridge/legacy/PerformanceAdapters.cpp:381-480 | the registry built by the loops holds the kept adapters in order, the claims of each and a warning for each dropped definition |
| AdapterRegistry.FindClaim | src/bridge/legacy/PerformanceAdapters.cpp:205-228 | a path's own claim decides, and the module name's only when the path has none |
| AdapterRegistry.FindExclusiveOwner | src/bridge/legacy/PerformanceAdapters.cpp:482-496 | the owner by the tables is the owner by the definitions |
| AdapterRegistry.FindSharedLayer | src/bridge/legacy/PerformanceAdapters.cpp:498-507 | the shared layer by the tables is the one by the definitions |
| AdapterRegistry.IsSharedModule | src/bridge/legacy/PerformanceAdapters.cpp:509-524 | a module is shared exactly when an enabled adapter that is no config snapshot lists its path or its name as shared |
| AdapterRegistry.SharedIff | src/bridge/legacy/PerformanceAdapters.cpp:509-524 | a module is shared exactly when its bare name, or its path if it is one, is listed as shared by an enabled adapter that is no config snapshot, or is listed by such an adapter that is a shared layer |
| AdapterRegistry.BareTail | src/bridge/legacy/PerformanceAdapters.cpp:303-318 | the bare name is the longest end of the path without a slash |
| AdapterRegistry.OwnerIsFirst | src/bridge/legacy/PerformanceAdapters.cpp:482-496 | the owner of a module that is not shared is the enabled group or hybrid adapter of least registration order that lists its path, or its bare name if nobody lists the path; there is none exactly when nobody lists that |
| AdapterRegistry.InputOrderIrrelevant | src/bridge/legacy/PerformanceAdapters.cpp:381-480 | with distinct registration orders every permutation of the input gives the same adapters, the same drops and the same owner of every module |
| Attribution.SharedConserved | src/bridge/legacy/PerformanceAdapters.cpp:526-693 | the exact samples through shared modules are attributed, unresolved and unassigned samples added up |
| Attribution.StackOrderIrrelevant | src/bridge/legacy/PerformanceAdapters.cpp:526-693 | every exact total is the same for every order of the stacks |
| Attribution.RegistryIsSound | src/bridge/legacy/PerformanceAdapters.cpp:381-480 | claims only ever name enabled adapters, so a sample has an owner that is counted |
| Attribution.KnownIff | src/bridge/legacy/PerformanceAdapters.cpp:554-575 | a base is known exactly when it is not zero and some sample has it, and its module is that of the first such sample |
| Attribution.CountedIff | src/bridge/legacy/PerformanceAdapters.cpp:554-609 | a module sample is counted for an adapter exactly when its base is not zero, no sample before it has that base and the adapter owns its module |
| Attribution.CallerOwnerIs | src/bridge/legacy/PerformanceAdapters.cpp:611-650 | the owner found for a stack is that of the first caller whose module has one, and none is found only when no caller has |
| Attribution.LotIff | src/bridge/legacy/PerformanceAdapters.cpp:611-693 | a stack through a shared module is attributed exactly to the owner of its first owned caller, unresolved exactly for the layer of its module when no caller is owned, and unassigned exactly when there is no layer either |
| Attribution.OwnTotalIsSum | src/bridge/legacy/PerformanceAdapters.cpp:526-693 | the exact total of own samples is the sum over the enabled adapters |
| Attribution.AssignedIsSummed | src/bridge/legacy/PerformanceAdapters.cpp:526-693 | the saturated counter of all own samples is the saturated sum of the adapters' counters, and it warns when any of them does |
| Attribution.CountModules | src/bridge/legacy/PerformanceAdapters.cpp:554-609 | each module sample is counted once, for its owner and for all; each counter is the saturated exact total and warns exactly when that exceeds 2^64-1 |
| Attribution.CountStacks | src/bridge/legacy/PerformanceAdapters.cpp:611-693 | each stack is counted in its lot; each counter is the saturated exact total and warns exactly when that exceeds 2^64-1 |
| Attribution.AttributeCapture | src/bridge/legacy/PerformanceAdapters.cpp:526-693 | a whole capture: all counters and warnings are those of the exact totals, and the evidence overflow is reported exactly when an enabled adapter's own and attributed samples together exceed 2^64-1 |
| CaptureDrain.RunKeeps | src/bridge/legacy/EffectInspector.cpp:1797-1828 | in every interleaving of the controller and any number of threads the counter is admitted minus ended and equals the transactions under way |
| CaptureDrain.StopDrains | src/bridge/legacy/EffectInspector.cpp:1805-1813 | once StopCapture has returned no admitted transaction is still running, so the dump sees the end of every one |
| CaptureDrain.NothingAdmitted | src/bridge/legacy/EffectInspector.cpp:1815-1823 | after the flag is cleared nothing is admitted until the next start, and the counter only falls |
| CaptureDrain.CanDrain | src/bridge/legacy/EffectInspector.cpp:1805-1813 | from any waiting state some run of the transactions under way lets the controller return |
| CaptureDrain.OneHolder | src/bridge/legacy/EffectInspector.cpp:1797-1823 | while the lock is held neither a thread nor the controller gets it |
| CaptureDrain.StartActivates | src/bridge/legacy/EffectInspector.cpp:1797-1803 | starting a capture sets the flag under the lock and gives the lock back |
| CaptureDrain.StopClears | src/bridge/legacy/EffectInspector.cpp:1805-1813 | stopping it clears the flag under the lock, gives the lock back and waits |
| CaptureDrain.AskingAdmits | src/bridge/legacy/EffectInspector.cpp:1815-1823 | while the flag is set a thread that asks is admitted and counted, under the lock |
| CaptureDrain.AskingRefused | src/bridge/legacy/EffectInspector.cpp:1815-1823 | while it is not the thread is turned away and nothing is counted |
| CaptureDrain.EndingReleases | src/bridge/legacy/EffectInspector.cpp:1805-1828 | an admitted transaction that ends is counted out, and the waiting controller goes on exactly when it was the last |
| ProbeSampler.StrideStep | src/bridge/legacy/EffectInspector.cpp:1533-1541 | the doubling rule keeps the closed form 2^min(12, (m-1)/256) |
| ProbeSampler.StopIsExact | src/bridge/legacy/EffectInspector.cpp:1543-1561 | stopping at the first structural difference compares exactly the places alike up to there |
| ProbeSampler.Walk | src/bridge/legacy/EffectInspector.cpp:1543-1561 | one comparison adds one exactly to the places that are alike through their index and differ in hash, and reports structure exactly |
| ProbeSampler.TechniqueStat.Observe | src/bridge/legacy/EffectInspector.cpp:1502-1562 | a transaction is compared exactly when it recorded something, a baseline exists, the stride has been waited out and the budget is not spent |
| ProbeSampler.Session | src/bridge/legacy/EffectInspector.cpp:1502-1562 | over a whole session: at most 4096 comparisons, the stride and the number of transactions in closed form, the j-th comparison made at transaction 1 plus the strides waited out, and each counter equal to the number of compared transactions that differ there |
| ProbeSampler.CountsAre | src/bridge/legacy/EffectInspector.cpp:1543-1562 | the counter of a place is the number of compared transactions that write the same operations, keys and passes as the baseline up to it and there another value; the structural counter is the number of those with another sequence of writes |
| ProbeSampler.FirstInARow | src/bridge/legacy/EffectInspector.cpp:1524-1541 | the first 257 comparisons are of transactions in a row |
| ModulePath.NormalizeModulePath | src/bridge/legacy/PerformanceAdapters.cpp:230-301 | the segment loop computes the normal form |
| ModulePath.StartStays | src/bridge/legacy/PerformanceAdapters.cpp:235-263 | the drive, the root and the two slashes of a network path stay at the start of the result |
| ModulePath.NameAdds | src/bridge/legacy/PerformanceAdapters.cpp:266-298 | a name read on from a directory is one more segment |
| ModulePath.ParentUndoes | src/bridge/legacy/PerformanceAdapters.cpp:266-298 | ".." undoes the name before it, whatever follows, for every directory and, on a network path, behind the server and the share |
| ModulePath.ParentStops | src/bridge/legacy/PerformanceAdapters.cpp:266-298 | it removes nothing at a root, nor of the server and the share of a network path |
| ModulePath.ParentStaysOpen | src/bridge/legacy/PerformanceAdapters.cpp:266-298 | and a path that is not from a root keeps each ".." that has nothing to undo |
| ModulePath.NothingAdds | src/bridge/legacy/PerformanceAdapters.cpp:266-298 | "." and doubled separators change nothing |
| ModulePath.NormIsJoined | src/bridge/legacy/PerformanceAdapters.cpp:93-107 | segments that do not end in a colon stand behind the start with single slashes between them |
| ModulePath.SegmentsCanonical | src/bridge/legacy/PerformanceAdapters.cpp:230-301 | no empty or "." segment is left, and ".." only as a leading run of a path that is not absolute |
| ModulePath.GuardedStay | src/bridge/legacy/PerformanceAdapters.cpp:93-107 | the guarded first segments of a network path, server and share, are never popped |
| ModulePath.IdempotentIff | src/bridge/legacy/PerformanceAdapters.cpp:230-301 | normalizing twice is normalizing once exactly when the result has no colon second with a "." segment right behind it |
| ModulePath.DriveColonIdempotent | src/bridge/legacy/PerformanceAdapters.cpp:230-301 | normalizing is idempotent for every path whose only colon is a drive colon |
| ModulePath.NotIdempotent | src/bridge/legacy/PerformanceAdapters.cpp:230-301 | it is not in general: "./a:." takes two rounds |
| SnapshotReader.StripSnapshotComment | src/bridge/legacy/PerformanceAdapterConfig.cpp:501-539 | the flag loop returns the longest prefix that holds no comment start |
| SnapshotReader.StripUnique | src/bridge/legacy/PerformanceAdapterConfig.cpp:501-539 | the cut is at the first ';' or '#' outside quotes, escapes counted, and nowhere else |
| SnapshotReader.StripIdempotent | src/bridge/legacy/PerformanceAdapterConfig.cpp:501-539 | stripping twice is stripping once |
| SnapshotReader.ReadConfigSnapshot | src/bridge/legacy/PerformanceAdapterConfig.cpp:855-986 | the entries are those of the readable lines cut to the limits, bytes and entries stay within them and within 1 MiB and 512, and truncation is reported, once, exactly when the file or the entries exceed a limit |
| SnapshotReader.KeptIsMonotone | src/bridge/legacy/PerformanceAdapterConfig.cpp:855-986 | for any file the entries under smaller byte and entry limits are a prefix of those under larger ones |
| SnapshotReader.EntryIff | src/bridge/legacy/PerformanceAdapterConfig.cpp:923-983 | an entry is there exactly when a line assigns it, with the section that rules there and its own line number |
| SnapshotReader.LinesIncrease | src/bridge/legacy/PerformanceAdapterConfig.cpp:923-983 | line numbers strictly increase |
| SnapshotReader.QuotedReadsBack | src/bridge/legacy/PerformanceAdapterConfig.cpp:541-551 | a value written in double or single quotes is read back whole, comment marks and blanks included, if it holds no such quote and no backslash |
| SnapshotReader.EscapedKeepsMarks | src/bridge/legacy/PerformanceAdapterConfig.cpp:501-539 | no comment starts inside a quoted text whose quotes and backslashes are escaped, whatever it holds |
| SnapshotReader.MismatchStays | src/bridge/legacy/PerformanceAdapterConfig.cpp:541-551 | a value that does not begin and end with the same quote is only trimmed |
| SnapshotReader.AssignmentReads | src/bridge/legacy/PerformanceAdapterConfig.cpp:923-983 | a line with an "=" assigns to the text before its first one the text behind it, both without the blanks around them, if it has neither quotes nor comment marks and is no section line |
| SnapshotReader.SectionReads | src/bridge/legacy/PerformanceAdapterConfig.cpp:923-983 | a name in brackets opens that section, blanks around and within taken off |
| SnapshotReader.CommentReads | src/bridge/legacy/PerformanceAdapterConfig.cpp:923-983 | a comment behind a text without quotes does not change what the line says |
| SnapshotReader.NoKeySaysNothing | src/bridge/legacy/PerformanceAdapterConfig.cpp:923-983 | a line without "=", or with nothing before it, says nothing |
| Text.TrimCopy | src/bridge/legacy/BridgeD3D9.cpp:5962-5975 | the trimming loop computes the trimmed text |
| Text.TrimIsMiddle | src/bridge/legacy/BridgeD3D9.cpp:5962-5975 | trimming cuts one block of blanks off each end and nothing else |
| Text.TrimUnique | src/bridge/legacy/BridgeD3D9.cpp:5962-5975 | and any cut of that kind that leaves no blank at an end gives the trimmed text |

## Left out

- The branch of the recorder that probes trace stability (dedicated scratch buffer, per-slot change counts): diagnostics, no replay follows from it.
- The text of warnings, logs and reports, the order of summaries in an attribution report, and the lookups inside a parsed snapshot: formatting and easy members.
- `StateJournal.Transaction` and `StateJournal.Journal.Write`: the native capture path of the DXVK side, `SubmitStateBatch` and the probe records are not modelled; the three unbounded lists (transforms, lights, light enables) are one list, so the order in which a restore visits them is not captured; reference counts of saved objects are not modelled.
- `OpStream.Recording.AppendOp`: the five padding bytes of a header are arbitrary parameters, because the program leaves them unset.
- `PassRecording.DecodeEncodeIff`: a payload shorter than its op needs (which no recorder makes) decodes to no call; the program does not check it.
- `PassFidelity.ReplayIsPass`: assumes that the values of masked constants are the latest ones in the shadow; whether a texture judged dynamic at validation is the right parameter for later objects is a heuristic and is not claimed.
- `PassLite.HandleSet` and `PassLite.SeenUpdated`: keeping the device in step is proved for slots that do not overlap and a device that accepts the calls.
- `LiteLifecycle.RunEvents` and `LiteLifecycle.Transaction`: a restore from a thread other than the one that began, a callback that reaches a state manager already replaced, and programs that mix the general hooks with the batch entry points are not modelled; effect addresses are not reused within a run.
- `RedundantFilter.RunRefines`: state blocks and device writes that bypass the wrapper are outside the filter's view; render states and textures are tracked by the same scheme only for statistics and are left out, as are the statistics.
- `BatchMachine.RunClient`: the batching switches do not change within a run, the framework's own calls succeed, the client makes its EndPass and End whatever BeginPass answered, and CommitChanges as a direct call of the client on an open batch is not a batch entry point.
- `VulkanHost.Run`: the passes of all plugins are kept in one order, so the order between plugins is not captured; unloading destroys the passes one by one; pass descriptions and recording into command buffers are not modelled.
- `VulkanHost.HandBack`: says nothing of what is gone once 2^64 tokens have been given out.
- `BindingLookup.Run`: an operation is one atomic step; the windows between the original Release and the removal from the registry, and between publishing and withdrawing a binding, are not interleaved.
- `CallPatches.Patches.Install`: the range test of the displacement is not modelled, because a pointer difference has 32 bits in the x86 build and the test never fails there; flushing the instruction cache, restoring the page protection afterwards and reading the image header are calls into the operating system (whether they succeed is a parameter).
- `IniEdit.OneOwnerIff`: whether to prefer the second adjuster, including the search of its log for a crash, is a parameter; reading and saving the files is not modelled.
- `SnapshotReader.ReadConfigSnapshot`: opening and reading the file is a parameter (missing, unreadable, or its bytes); the test for a read size that is not representable is unreachable under the 1 MiB limit and is left out; the adapter configuration itself (sections, key lookup, defaults) would add easy members.
- `Attribution.AttributeCapture`: the module identities a capture skips (no base, or a base seen before) are skipped here too, without their warnings.
- `CaptureDrain.CanDrain`: says that the wait can end, not that a scheduler lets it end.
- The hand-written lighting constants and shader hashes: float arithmetic against a shader that is not part of this model.
- The general capture, trace, hotspot and screenshot code, plugin loading, vtable and import patching, affinity and hotkeys, the forwarding exports: plumbing and foreign calls.
