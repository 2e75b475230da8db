# Trace replay: scheduler, descriptor tables and address map

A model of the system-call trace replayer and proofs of what it promises. The replayer reads about
seventy streams of recorded calls, merges them back into one order, and replays the calls of many traced
processes inside a single process. Three parts of it carry state and are modelled in full; the system
calls themselves, the trace files and the log are not.

## How the model is laid out

**Address map** (`AddressMap.dfy`, `VirtualAddressSpace.dfy`). The map of one process is a sequence of
intervals on 64-bit addresses with wrap-around written out. `AddressMap` has the overlap tests and the
delete as functions and says which pairs of a traced and a replayed byte a map denotes. The classes
`VmNode`, `VmArea` and `VmManager` are the mutable form: a vector of distinct heap nodes, and a delete that
walks a snapshot while it erases from and appends to the live vector.

**Descriptors and umasks** (`Pools.dfy`, `Descriptors.dfy`, `FdSimulation.dfy`, `FdLaws.dfy`,
`FdContents.dfy`, `Umasks.dfy`, `ResourcesManager.dfy`, `ProcessRows.dfy`). A `Pool` is a map from process ids to
reference-counted entries; descriptor tables and umasks are two instances. `Descriptors.Step` is one
replayed row, with a failed assertion of the resource manager as the outcome `Aborted`, over the tables of
all processes and the one kernel behind them, a map from descriptors to open file descriptions (section
2.14 of POSIX.1-2017 System Interfaces). `TracedStep` is what the same call did to the traced processes: there a
clone shares descriptors only if it asks for CLONE_FILES, whatever the replay makes of the other flags.
`ReplayerResourcesManager` and `Replayer` are the manager and the `processRow` methods as objects on the
heap; each method is proved to make exactly the step of the functions.

**Scheduler** (`Traces.dfy`, `Scheduler.dfy`, `Places.dfy`, `Counters.dfy`, `CounterBounds.dfy`,
`HappensBefore.dfy`, `SingleProcess.dfy`, `Completion.dfy`, `RunAhead.dfy`, `Waits.dfy`, `ReaderAlone.dfy`,
`Release.dfy`, `LostCall.dfy`, `SchedulerLaws.dfy`, `Turns.dfy`, `Loader.dfy`). A step machine: the reader and the executors each take
one small step at a time (read, push, count up, take, count down, each counter of a scan, publish, retire,
validate, execute, read and write the last number), in any interleaving. A run is
any sequence of labels, and a label that is not enabled does nothing, so a lemma about `Run` is about
every interleaving. The parts of the machine are `RoundStep` and `BatchStep` for the reader
(`src/SystemCallTraceReplayer.cpp:734-797, 842-854`), `TakeStep`, `MissStep`, `WaitStep`, `CheckStep`,
`UndoStep`, `ExecuteStep` and `EndStep` for an executor (lines 856-921) and `Start` for lines 644-732. The
class `SyscallLoader` is the loader and the loop of the reader as the program writes them; a ghost field
follows the machine, so its methods are runs of the machine's reader.

`Collections.dfy` has three facts about sets and maps.

## What the code does that its comments do not say

- A successful execve removes close-on-exec entries without closing the replayed descriptors: they stay
  open and belong to no table (`FdLaws.ExecveLeaks`). A failed execve still removes simulated entries with
  the flag (`FdLaws.FailedExecveBreaks`).
- A dup2 or dup3 from a slot that holds a simulated descriptor, or one that is not open, onto a slot that holds
  an open descriptor drops that descriptor without closing it: it too stays open and belongs to no table
  (`FdContents.DroppedIsLost`). These two are the only ways to lose one (`FdContents.RunAccounts`).
- An unshared clone reuses descriptor 0 instead of dup'ing it, and the initial table holds 0, so the first
  process that forks already shares it (`FdLaws.FirstForkReusesZero`). The claims are therefore made from a
  least descriptor `lo` on: 1 in general, 0 for runs that copy no table with descriptor 0.
- A dup of a simulated descriptor stores the traced number as if it were a replayed descriptor; dup2 of a
  descriptor onto itself clears its stored close-on-exec flag, and dup3 ignores its flags argument. The set
  of records for which the simulation is kept is given exactly (`FdLaws.StepKeepsIff`).
- A clone with CLONE_THREAD shares descriptors and umask in the replay even without CLONE_FILES and CLONE_FS,
  and the kernel does not (it asks only for CLONE_SIGHAND and CLONE_VM with it). After such a clone the replay
  aborts as soon as both processes open a file and get the same number (`FdLaws.CloneOfThreadAborts`, from the
  first state `FdLaws.FirstThreadAborts`), and a mask that the child sets applies to its parent
  (`Umasks.ThreadMaskLeaks`). The replay is right exactly when threads ask for these flags too
  (`FdLaws.StepKeepsIff`, `Umasks.HistoryRefinesIff`).
- umask values are stored without being reduced to the permission bits (`Umasks.ModesAgreeIff`).
- The address map finds a node that starts inside the eight bytes at a pointer, and then computes an
  address outside that node (`AddressMap.TranslationMeaning`, `AddressMap.LookupMeaning`). A delete whose
  range wraps around is wrong for most nodes and maps (`AddressMap.DeleteExactIff`,
  `AddressMap.MapDeleteExactIff`).
- A counter is briefly the largest word when an executor takes and counts a record between its push and its
  count by the reader (`CounterBounds.CounterIsExact`).
- With record numbers that follow neither the calls nor the returns, the check can hold back everyone: a
  record outside the window of 150 holds back the ones inside (`SchedulerLaws.NobodyMayStart`).
- The counters are global for each type, so with several processes a thread may find its heap empty, or take
  a record too early, while the reader still holds one; when exactly is `HappensBefore.TakeInOrderIff` and
  `HappensBefore.MissIff`. The thread of a child takes its first record without waiting, so it can end at
  once, and then its calls are never replayed: `LostCall.CallIsLost` is a sound trace with such a replay.

## Model

| member | source | states |
|---|---|---|
| AddressMap.OverlapTestsClassify | src/VirtualAddressSpace.cpp:56-78 | the four overlap tests exclude each other, wrap-around or not, and for a non-empty node one holds exactly if the ranges intersect |
| AddressMap.DeleteRemovesExactly | src/VirtualAddressSpace.cpp:95-175 | a delete removes exactly the byte pairs in its range and keeps all others with both descriptors |
| AddressMap.DeleteExactIff | src/VirtualAddressSpace.cpp:112-168 | without assuming that the range does not wrap: exactly when the delete is right at a node |
| AddressMap.MapDeleteExactIff | src/VirtualAddressSpace.cpp:95-175 | the same for a whole map: the range does not wrap, or no node goes beyond its start and the bytes that the cut nodes gain were mapped to the same place |
| AddressMap.WrappedDeleteMissesItsRange | src/VirtualAddressSpace.cpp:70-73 | a concrete range that wraps and leaves a node it covers |
| AddressMap.RunDenotes | src/VirtualAddressSpace.cpp:49-175 | after any run of inserts and deletes the map denotes the pairs inserted and not deleted since |
| AddressMap.DeleteKeepsStructure | src/VirtualAddressSpace.cpp:133-168 | nodes stay non-empty and disjoint, at most one is added, and the total size drops by exactly the overlap |
| AddressMap.TranslationMeaning | src/ReadSystemCallTraceReplayModule.cpp:213-226 | the address computed through a found node is the mapped one if and only if the node does not start after the pointer |
| AddressMap.TranslatesMeansMapped | src/ReadSystemCallTraceReplayModule.cpp:216-222 | translating an address is the same as the map pairing it |
| AddressMap.DeleteKeepsTranslation | src/VirtualAddressSpace.cpp:133-168 | a delete keeps the translation of every surviving address, and a deleted one has none |
| AddressMap.LookupMeaning | src/ReadSystemCallTraceReplayModule.cpp:213-226 | which addresses a mapped read dereferences: the translations, and one for each node that starts inside the word |
| VirtualAddressSpace.VmArea.InsertVmNode | src/VirtualAddressSpace.cpp:49-54 | the node is appended |
| VirtualAddressSpace.VmArea.FindVmNode | src/VirtualAddressSpace.cpp:80-93 | the matching nodes in order, padded with null to the size of the vector |
| VirtualAddressSpace.VmArea.Erase | src/VirtualAddressSpace.cpp:134-137 | the node found by search leaves the vector |
| VirtualAddressSpace.VmArea.CutNode | src/VirtualAddressSpace.cpp:115-168 | the four cases of the switch, on the node in place |
| VirtualAddressSpace.VmArea.DeleteVmNode | src/VirtualAddressSpace.cpp:95-175 | the walk over the snapshot leaves the vector at the deleted map, although it erases and appends on the way |
| VirtualAddressSpace.TranslateNodes | src/ReadSystemCallTraceReplayModule.cpp:216-226 | the loop over the found nodes, null entries skipped |
| VirtualAddressSpace.VmArea.TranslateFound | src/ReadSystemCallTraceReplayModule.cpp:213-226 | search and loop give the lookups of the map |
| VirtualAddressSpace.VmManager.GetVmArea | src/VirtualAddressSpace.cpp:38-47 | an area for each process, made empty on first use, no other process affected |
| VirtualAddressSpace.VmManager.Mmap | src/MmapSystemCallTraceReplayModule.cpp:63-93 | afterwards the process maps its old pairs and, unless the guard returns, traced + off to replayed + off with both descriptors for each off below the size; other processes keep their maps |
| VirtualAddressSpace.VmManager.Munmap | src/MunmapSystemCallTraceReplayModule.cpp:53-57 | afterwards the caller maps its old pairs outside the range and no others; other processes keep their maps |
| VirtualAddressSpace.VmManager.MmapPRead | src/ReadSystemCallTraceReplayModule.cpp:198-234 | the addresses read, the replayed address of every mapped pair at the pointer among them; none and no new area for a simulated descriptor; the maps stay |
| VirtualAddressSpace.ProcessMapsDenote | src/VirtualAddressSpace.cpp:38-175 | after any interleaving of the rows of all processes a pair is mapped exactly if a row of the process mapped it and no later one unmapped it |
| VirtualAddressSpace.RowMeaning | src/MmapSystemCallTraceReplayModule.cpp:63-80 | one row, in pairs: the old ones that it does not unmap, and those that it maps |
| VirtualAddressSpace.MappedRowIsRead | src/ReadSystemCallTraceReplayModule.cpp:213-226 | a mapped read anywhere in the range of a row that was just mapped reads the replayed address at the same offset |
| AddressMap.MappedIsRead | src/ReadSystemCallTraceReplayModule.cpp:213-226 | a read at a mapped traced address reads the replayed address that the map pairs with it |
| Pools.CreateKeepsCountsIff | src/ReplayerResourcesManager.cpp:181-215 | a new entry keeps the reference counts exact if and only if the process id was not in use |
| Pools.ShareKeepsCountsIff | src/ReplayerResourcesManager.cpp:176-180 | the same for sharing the entry of the parent |
| Pools.ReleaseKeepsCounts | src/ReplayerResourcesManager.cpp:219-237 | a release keeps the counts exact, never lowers a zero, and frees exactly with the last process |
| Pools.Entry.constructor | src/ReplayerResourcesManager.cpp:380 | a new entry has count 1 |
| Pools.Entry.IncrementRc | src/ReplayerResourcesManager.cpp:382 | one more |
| Pools.Entry.DecrementRc | src/ReplayerResourcesManager.cpp:384-388 | one less; the assertion is the precondition |
| Pools.EntryMap.Create | src/ReplayerResourcesManager.cpp:263-278 | a fresh object for the process, all others untouched |
| Pools.EntryMap.Share | src/ReplayerResourcesManager.cpp:263-278 | the child points to the object of the parent and its count goes up |
| Pools.EntryMap.Release | src/ReplayerResourcesManager.cpp:280-293 | the pointer goes, the count goes down, and the object is freed at zero |
| Descriptors.FirstFree | src/ReplayerResourcesManager.cpp:135-140 | the least number not in the set, bounded by its size |
| FdSimulation.OpenKeeps | src/OpenSystemCallTraceReplayModule.cpp:57-84 | all three outcomes of open keep the simulation and no assertion fails |
| FdSimulation.SocketKeeps | src/SocketSystemCallTraceReplayModule.cpp:51-68 | so does a simulated socket |
| FdSimulation.CloseKeeps | src/CloseSystemCallTraceReplayModule.cpp:51-65 | so does close, of absent and simulated slots too |
| FdSimulation.DupKeeps | src/DupSystemCallTraceReplayModule.cpp:52-75 | so does a dup that is not simulated |
| FdSimulation.TargetFits | src/Dup2SystemCallTraceReplayModule.cpp:107-134 | the target of dup2 and dup3 belongs to no other slot of any process and not to the replayer |
| FdSimulation.Dup2Keeps | src/Dup2SystemCallTraceReplayModule.cpp:58-142 | dup2 in all its cases keeps the simulation |
| FdSimulation.Dup3Keeps | src/Dup3SystemCallTraceReplayModule.cpp:59-143 | dup3 in all its cases keeps it when the flags agree |
| FdSimulation.ExecveKeeps | src/ExecveSystemCallTraceReplayModule.cpp:63-98 | the sweep removes the slots that the traced kernel closed |
| FdSimulation.ExitClosesNoSurvivor | src/ReplayerResourcesManager.cpp:219-237 | no descriptor that an exit closes is left in a surviving table |
| FdSimulation.ExitKeeps | src/ExitSystemCallTraceReplayModule.cpp:55-65 | exit keeps the simulation |
| FdSimulation.ShareKeeps | src/ReplayerResourcesManager.cpp:176-180 | so does a clone that shares the table |
| FdSimulation.CopyKeeps | src/ReplayerResourcesManager.cpp:181-216 | so does one that copies it, with one dup for each descriptor above 0 |
| FdSimulation.CloneKeeps | src/CloneSystemCallTraceReplayModule.cpp:75-91 | a clone that the kernel lets share shares in the replay and any other copies, if a thread asks for the files |
| FdSimulation.StepKeeps | src/ReplayerResourcesManager.cpp:103-237 | every covered record keeps the simulation and trips no assertion |
| FdSimulation.RunSimulates | src/ReplayerResourcesManager.cpp:103-237 | over whole runs: no assertion fails, each table has the traced descriptors as keys, and each claimed slot names the copy of the same description, in no other slot, or holds -1 after a refused call (`FdContents.EverySlotNamesItsFile` excludes that) |
| FdLaws.StartSimulatesIn | src/ReplayerResourcesManager.cpp:44-101 | the simulation holds after initialization, for every kernel that has the standard descriptors of the traced process |
| FdLaws.StartSimulates | src/ReplayerResourcesManager.cpp:44-101 | and so for the one with the replayer's own descriptors only |
| FdLaws.DescriptionsSharedAlike | src/ReplayerResourcesManager.cpp:172-217 | two slots share a replayed description exactly if the traced ones share theirs |
| FdLaws.DupToDenotes | src/Dup2SystemCallTraceReplayModule.cpp:107-142 | the new slot denotes the description of the old one, or both are simulated |
| FdLaws.DupToSparesOthers | src/Dup2SystemCallTraceReplayModule.cpp:107-142 | every other slot of every process keeps its descriptor, open and unchanged |
| FdLaws.DupToSixCases | src/Dup3SystemCallTraceReplayModule.cpp:59-143 | both of these for dup2 and dup3, in all six cases |
| FdLaws.ExitClosesExactly | src/ReplayerResourcesManager.cpp:219-237 | all replayed descriptors exactly when the last sharer leaves, none otherwise, and none of a survivor |
| FdLaws.StepKeepsIff | src/ReplayerResourcesManager.cpp:103-237 | a record keeps the simulation if and only if it is a covered one |
| FdLaws.FirstForkReusesZero | src/ReplayerResourcesManager.cpp:196-207 | from the initial state a fork puts descriptor 0 into two tables |
| FdLaws.CopyOfZeroBreaks | src/ReplayerResourcesManager.cpp:196-207 | any unshared clone of a table with 0 ends exclusive ownership of 0 |
| FdLaws.CloneOfThreadBreaks | src/CloneSystemCallTraceReplayModule.cpp:77-82 | a clone of a thread without CLONE_FILES joins in the replay what the kernel keeps apart |
| FdLaws.CloneOfThreadAborts | src/ReplayerResourcesManager.cpp:455 | from every state, two possible records later an assertion fails |
| FdLaws.FirstThreadAborts | src/ReplayerResourcesManager.cpp:455 | the concrete flags and records, from the start |
| FdLaws.DupOfSimulatedBreaks | src/DupSystemCallTraceReplayModule.cpp:62-74 | a dup of a simulated slot stores a number that is no socket |
| FdLaws.DupOfSimulatedOwnershipIff | src/DupSystemCallTraceReplayModule.cpp:62-74 | it keeps exclusive ownership exactly if no slot holds that number |
| FdLaws.DupOntoItselfBreaks | src/Dup2SystemCallTraceReplayModule.cpp:107-115 | dup2 onto itself loses a close-on-exec flag |
| FdLaws.Dup3FlagBreaks | src/Dup3SystemCallTraceReplayModule.cpp:114-116 | dup3 stores the old flags, whatever its argument |
| FdLaws.FailedExecveBreaks | src/ExecveSystemCallTraceReplayModule.cpp:90-94 | a failed execve removes a simulated slot that the traced process keeps |
| FdLaws.ExecveLeaks | src/ExecveSystemCallTraceReplayModule.cpp:86-88 | a swept descriptor stays open and is in no table |
| FdLaws.CountsOverRuns | src/ReplayerResourcesManager.cpp:172-237 | with fresh names the count of each live table is the number of its processes, over any run, simulated or not |
| FdLaws.CountsStep | src/ReplayerResourcesManager.cpp:380-388 | one record keeps the counts, and an exit of a live process never aborts |
| FdLaws.IsolationOverRuns | src/ReplayerResourcesManager.cpp:181-216 | no run of records of other sharing classes changes the table, the count or the class of a process |
| FdLaws.SharingOverRuns | src/ReplayerResourcesManager.cpp:176-180 | processes joined by a shared clone see one table until one of them exits |
| FdLaws.CloneJoinsIff | src/CloneSystemCallTraceReplayModule.cpp:75-91 | replay and kernel join the child to its parent alike exactly if a thread asks for the files; otherwise only the replay does |
| FdContents.OpenStores | src/OpenSystemCallTraceReplayModule.cpp:57-84 | a traced open that succeeded gives its slot the descriptor that the kernel answered, open on a description of its own, and changes no other slot |
| FdContents.FailedOpenStores | src/OpenSystemCallTraceReplayModule.cpp:59-65 | after a traced open that failed no slot has changed but -1, and what the replay opened is closed |
| FdContents.SocketStores | src/SocketSystemCallTraceReplayModule.cpp:51-68 | a socket has the simulated descriptor and its flags |
| FdContents.DupStores | src/DupSystemCallTraceReplayModule.cpp:52-75 | a dup gives its slot the descriptor that the kernel answered, on the description of the source, with the flags of the source but for close-on-exec |
| FdContents.DupToFlags | src/Dup2SystemCallTraceReplayModule.cpp:113-142 | dup2 takes only close-on-exec from the flags of the source, and dup3 takes nothing |
| FdContents.CloneStores | src/ReplayerResourcesManager.cpp:181-216 | an unshared clone gives each slot above 0 the descriptor its dup answered, on the same description, and copies all other slots and the flags |
| FdContents.FailedExecveSweeps | src/ExecveSystemCallTraceReplayModule.cpp:86-94 | a failed execve removes a slot if and only if it is simulated with a close-on-exec flag |
| FdContents.EverySlotNamesItsFile | src/ReplayerResourcesManager.cpp:103-237 | over whole runs in which no call that succeeded in the trace was refused by the kernel of the replay, each slot that is no socket names the open copy of its traced description |
| FdContents.EverySlotFromTheStart | src/ReplayerResourcesManager.cpp:44-237 | the same from the first state on |
| FdContents.ExitCloses | src/ExitSystemCallTraceReplayModule.cpp:55-65 | an exit of the last sharer takes exactly the descriptors in its table out of the kernel, any other exit none, and the rest stay as they are |
| FdContents.RunAccounts | src/ReplayerResourcesManager.cpp:103-237 | over any run, simulated or not, each open descriptor is one of the replayer, in a slot of a live table, or among those that an execve, a dup2 or a dup3 dropped |
| FdContents.StartAccounted | src/ReplayerResourcesManager.cpp:44-101 | at the start none is lost |
| FdContents.DroppedIsLost | src/Dup2SystemCallTraceReplayModule.cpp:107-129 | each descriptor that such a call drops stays open and is in no table |
| Umasks.HistoryRefines | src/ReplayerResourcesManager.cpp:253-293 | over any history in which threads ask for the umask no umask assertion fails, counts are exact, and each process has the last mask set in its kernel class, or the inherited one |
| Umasks.HistoryRefinesIff | src/CloneSystemCallTraceReplayModule.cpp:77-79 | the masks are right throughout a history if and only if threads ask for the umask |
| Umasks.StepRepresentsIff | src/CloneSystemCallTraceReplayModule.cpp:77-89 | the same for one record, and no assertion fails either way |
| Umasks.ThreadMisrepresents | src/CloneSystemCallTraceReplayModule.cpp:77-79 | a clone of a thread without CLONE_FS ends it |
| Umasks.ThreadMaskLeaks | src/CloneSystemCallTraceReplayModule.cpp:77-79 | a concrete history after which the parent passes on a wrong mode |
| Umasks.SetRepresents | src/UmaskSystemCallTraceReplayModule.cpp:48-54 | a set mask is the mask of the whole class and of no other |
| Umasks.JoinRepresents | src/CloneSystemCallTraceReplayModule.cpp:77-89 | a sharing clone joins the class |
| Umasks.CreateRepresents | src/VForkSystemCallTraceReplayModule.cpp:53-68 | any other starts a class with the inherited mask |
| Umasks.ExitRepresents | src/ExitSystemCallTraceReplayModule.cpp:55-58 | exit takes only the leaving process out |
| Umasks.ModeRefines | src/SystemCallTraceReplayModule.cpp:238-243 | the mode passed on has all bits of the given one that are not in that mask, and no others |
| Umasks.MaskedMeaning | src/SystemCallTraceReplayModule.cpp:238-243 | the result has no bit of the mask, only bits of the mode, and all of those with the masked ones added |
| Umasks.ModesAgreeIff | src/UmaskSystemCallTraceReplayModule.cpp:48-54 | storing the mask whole agrees with POSIX exactly if it has permission bits only |
| ResourcesManager.ReplayerResourcesManager.Initialize | src/ReplayerResourcesManager.cpp:44-88 | one process with the standard entries and umask 0; other open descriptors belong to the replayer |
| ResourcesManager.ReplayerResourcesManager.AddFd | src/ReplayerResourcesManager.cpp:103-107 | the entry is added to the table of the process, with both assertions as preconditions |
| ResourcesManager.ReplayerResourcesManager.GetFd | src/ReplayerResourcesManager.cpp:109-112 | the replayed descriptor, or -1 |
| ResourcesManager.ReplayerResourcesManager.HasFd | src/ReplayerResourcesManager.cpp:120-123 | whether the slot exists |
| ResourcesManager.ReplayerResourcesManager.GetFlags | src/ReplayerResourcesManager.cpp:149-152 | the stored flags of an existing slot |
| ResourcesManager.ReplayerResourcesManager.GetAllTracedFds | src/ReplayerResourcesManager.cpp:114-118 | the keys of the table |
| ResourcesManager.ReplayerResourcesManager.RemoveFd | src/ReplayerResourcesManager.cpp:166-170 | the slot goes, and its descriptor is returned |
| ResourcesManager.ReplayerResourcesManager.GatherUsedFds | src/ReplayerResourcesManager.cpp:127-132 | all replayed descriptors of all tables |
| ResourcesManager.LeastUnused | src/ReplayerResourcesManager.cpp:135-140 | the search ends at the least number not in use |
| ResourcesManager.ReplayerResourcesManager.GenerateUnusedFd | src/ReplayerResourcesManager.cpp:125-141 | the least number in no table of any process and not the replayer's own |
| ResourcesManager.ReplayerResourcesManager.DupTable | src/ReplayerResourcesManager.cpp:182-211 | the copied table and what its dups did to the kernel, one after another |
| ResourcesManager.DupsAreClone | src/ReplayerResourcesManager.cpp:187-211 | the dups one by one are the clone of the kernel's side at once |
| ResourcesManager.ReplayerResourcesManager.CloneFdTable | src/ReplayerResourcesManager.cpp:172-217 | the table is shared or copied |
| ResourcesManager.ReplayerResourcesManager.RemoveFdTable | src/ReplayerResourcesManager.cpp:219-237 | the table is released, and its descriptors are returned when it is freed |
| ResourcesManager.ReplayerResourcesManager.GetUmask | src/ReplayerResourcesManager.cpp:253-256 | the mask of the process |
| ResourcesManager.ReplayerResourcesManager.SetUmask | src/ReplayerResourcesManager.cpp:258-261 | the shared entry is changed |
| ResourcesManager.ReplayerResourcesManager.CloneUmask | src/ReplayerResourcesManager.cpp:263-278 | the entry is shared or copied |
| ResourcesManager.ReplayerResourcesManager.RemoveUmask | src/ReplayerResourcesManager.cpp:280-293 | the entry is released |
| ProcessRows.Replayer.Prepare | src/SystemCallTraceReplayer.cpp:712-724 | from then on the objects simulate the traced process, when the replay inherits its standard descriptors |
| ProcessRows.Replayer.ReplayRow | src/ReplayerResourcesManager.cpp:103-293 | any covered row, on the objects: every assertion of the manager holds, and the simulation and the umask step are made |
| ProcessRows.Replayer.Open | src/OpenSystemCallTraceReplayModule.cpp:57-84 | makes the open step on tables and kernel and nothing else, with an answer as the simulation asks; what the step stores is `FdContents.OpenStores` |
| ProcessRows.Replayer.Socket | src/SocketSystemCallTraceReplayModule.cpp:51-68 | makes the socket step |
| ProcessRows.Replayer.Close | src/CloseSystemCallTraceReplayModule.cpp:51-65 | makes the close step |
| ProcessRows.Replayer.Dup | src/DupSystemCallTraceReplayModule.cpp:52-75 | makes the dup step, with an answer as the simulation asks |
| ProcessRows.Replayer.TakeSlot | src/Dup2SystemCallTraceReplayModule.cpp:107-111 | the slot is emptied before the target is chosen |
| ProcessRows.Replayer.DupTo | src/Dup2SystemCallTraceReplayModule.cpp:58-142 | makes the four actions of dup2 and dup3, and the value returned |
| ProcessRows.Replayer.Dup2 | src/Dup2SystemCallTraceReplayModule.cpp:58-142 | makes the dup2 step |
| ProcessRows.Replayer.Dup3 | src/Dup3SystemCallTraceReplayModule.cpp:59-143 | makes the dup3 step |
| ProcessRows.Replayer.Execve | src/ExecveSystemCallTraceReplayModule.cpp:63-98 | the loop over the snapshot makes the sweep |
| ProcessRows.Replayer.Exit | src/ExitSystemCallTraceReplayModule.cpp:55-65 | makes the exit step on umasks, tables and kernel; what the step closes is `FdContents.ExitCloses` |
| ProcessRows.Replayer.Clone | src/CloneSystemCallTraceReplayModule.cpp:64-91 | makes the clone step on umasks, tables and kernel, and states what its dups did when a source is closed |
| ProcessRows.Replayer.VFork | src/VForkSystemCallTraceReplayModule.cpp:53-69 | makes the unshared clone of both, in the same way |
| ProcessRows.Replayer.Umask | src/UmaskSystemCallTraceReplayModule.cpp:48-54 | makes the umask step and leaves the descriptors alone |
| ProcessRows.Replayer.GetMode | src/SystemCallTraceReplayModule.cpp:238-243 | the mode has all bits of the given one that are not in the umask of the process, and no others |
| Traces.BlocksMeaning | src/SystemCallTraceReplayer.cpp:828-836 | another published call holds a record back exactly if it returned before the record was called |
| Traces.AcceptedIff | src/SystemCallTraceReplayer.cpp:815-840 | what the whole check accepts, both ways |
| Traces.FirstToReturnPasses | src/SystemCallTraceReplayer.cpp:823-839 | the published call that returned first passes the time test |
| Traces.CheckExecutionValidation | src/SystemCallTraceReplayer.cpp:819-840 | the loop over the running table decides that acceptance |
| Places.RunKeeps | src/SystemCallTraceReplayer.cpp:734-921 | in every interleaving: each record is in one place, the log is exact, the table shows what it should, and the loader holds over |
| Places.ReadMoves | src/SystemCallTraceReplayer.cpp:757-764 | reading takes the next record of the stream into the module |
| Places.PushMoves | src/SystemCallTraceReplayer.cpp:752-773 | pushing takes the record held into the heaps |
| Places.TakeKeeps | src/SystemCallTraceReplayer.cpp:863-866 | a take loses and duplicates nothing |
| Places.RetireKeeps | src/SystemCallTraceReplayer.cpp:875-876 | the previous record, no longer published, goes to the deletion queue |
| Places.RequeueKeeps | src/SystemCallTraceReplayer.cpp:881-885 | a failed check puts the record back into the heap |
| Places.ExecuteKeeps | src/SystemCallTraceReplayer.cpp:889 | an executed record enters the log once, and a clone adds a thread that is new |
| Places.ReaderKeepsHoldOver | src/SystemCallTraceReplayer.cpp:734-797 | each reader step keeps the account of what is read, held, pushed and finished |
| Places.ThreadStepKeepsTable | src/SystemCallTraceReplayer.cpp:875-920 | each executor step keeps what its thread shows |
| Places.StartHolds | src/SystemCallTraceReplayer.cpp:644-732 | the state after loading and preparing satisfies all this |
| Counters.FireKeepsCounters | src/SystemCallTraceReplayer.cpp:734-797 | each step keeps the counters congruent to the queues |
| Counters.RunKeepsCounters | src/SystemCallTraceReplayer.cpp:742-886 | in every interleaving, modulo the word and up to steps under way |
| CounterBounds.OwedBounds | src/SystemCallTraceReplayer.cpp:749-886 | a counter stands for at most the length of its stream, and for a negative number only while the reader has a record to count |
| CounterBounds.RunKeepsBounds | src/SystemCallTraceReplayer.cpp:742-886 | in every interleaving: an overwritten counter changes only by what is queued, records put back stay until counted, and the reader stops only at the end of all streams |
| CounterBounds.CappedStaysHigh | src/SystemCallTraceReplayer.cpp:776-783 | an overwritten counter stays at least the overwriting value less the length of the stream |
| CounterBounds.CounterIsExact | src/SystemCallTraceReplayer.cpp:749-773 | a counter that is still read is exactly what it stands for, but for the wrapped moment |
| HappensBefore.TakeInOrderIff | src/SystemCallTraceReplayer.cpp:863 | a take is in the order of its process exactly if no earlier record of it is unpushed |
| HappensBefore.MissIff | src/SystemCallTraceReplayer.cpp:863-920 | a thread that ends has executed everything exactly if none of its records is unpushed |
| HappensBefore.CheckedMayStart | src/SystemCallTraceReplayer.cpp:879-881 | after the check every call of a registered process that returned before has been executed |
| HappensBefore.FireKeepsOrder | src/SystemCallTraceReplayer.cpp:856-921 | each step keeps the order of the log |
| HappensBefore.RunInOrder | src/SystemCallTraceReplayer.cpp:819-921 | so does every interleaving in which the reader keeps ahead |
| SingleProcess.SoloAhead | src/SystemCallTraceReplayer.cpp:863-873 | with one process the wait keeps the reader ahead at every take |
| SingleProcess.DecrementIsCovered | src/SystemCallTraceReplayer.cpp:866 | and no counter is decremented below zero |
| SingleProcess.FirstBatchFeeds | src/SystemCallTraceReplayer.cpp:970-972 | the first batch of 1000 loads enough before the threads start |
| SingleProcess.ThreadStepKeepsWait | src/SystemCallTraceReplayer.cpp:868-873 | the scan of the counters, one by one, ends with every type loaded or exhausted |
| SingleProcess.SoloRun | src/SystemCallTraceReplayer.cpp:734-921 | this holds over every interleaving |
| SingleProcess.SingleProcessMerges | src/SystemCallTraceReplayer.cpp:734-921 | records execute once each in the order of their numbers, the loop ends only when all are executed, and no type has more than 999 queued |
| Completion.SingleProcessCompletes | src/SystemCallTraceReplayer.cpp:734-921 | from every state that a replay of one process can reach it can go on to its end: the thread has left, and every record of the trace is in the log once, in the order of the numbers |
| SchedulerLaws.EveryRecordOnce | src/SystemCallTraceReplayer.cpp:734-921 | exactly one place, and exactly one log entry for each executed record, from the start |
| SchedulerLaws.NothingShownIsRetired | src/SystemCallTraceReplayer.cpp:845-884 | no published record is in the deletion queue or deleted |
| SchedulerLaws.PushedIsPrefix | src/SystemCallTraceReplayer.cpp:752-783 | what was pushed of a type is a prefix of its stream |
| SchedulerLaws.OneHeldOver | src/SystemCallTraceReplayer.cpp:757-790 | after a batch precisely one record is held, or the stream is exhausted and nothing is left |
| SchedulerLaws.CountersInEveryRun | src/SystemCallTraceReplayer.cpp:742-886 | the counters, from the start |
| SchedulerLaws.CounterCounts | src/SystemCallTraceReplayer.cpp:807-813 | with no step under way the counter is the length of the queue |
| SchedulerLaws.FailedCheckUndone | src/SystemCallTraceReplayer.cpp:880-886 | a turn with a failed check, from the take on: all heaps and counters are as before, the previous record is retired, and nothing is shown |
| SchedulerLaws.SomeoneMayStart | src/SystemCallTraceReplayer.cpp:819-840 | while all threads show a record, the first to return is held back by none and accepted exactly if it is in the window |
| SchedulerLaws.LeastMayStartIff | src/SystemCallTraceReplayer.cpp:815-840 | with numbers in the order of calls or of returns, the least is accepted exactly if it is in the window |
| SchedulerLaws.SomeoneMayStartIff | src/SystemCallTraceReplayer.cpp:815-840 | then some shown record is accepted if and only if some is in the window |
| SchedulerLaws.NobodyMayStart | src/SystemCallTraceReplayer.cpp:815-840 | two records with other numbers of which none may start |
| Turns.TurnLogs | src/SystemCallTraceReplayer.cpp:863-916 | a thread whose least record is in the window, while every other process shows a call that returned no earlier than this one was called, logs that record by its own steps; the whole resulting state is given |
| Turns.TurnDecides | src/SystemCallTraceReplayer.cpp:863-891 | a turn with several processes logs its record exactly under these conditions; otherwise heaps, counters and log are as before it |
| Turns.LeastTurnLogs | src/SystemCallTraceReplayer.cpp:875-891 | with numbers in the order of calls or of returns, the thread that shows the least number logs its record by its own steps if that is in the window |
| Turns.SomeTurnLogs | src/SystemCallTraceReplayer.cpp:819-891 | so while every thread shows a record and one is in the window, some thread logs its record by its own steps |
| SchedulerLaws.TraceOrderIsKept | src/SystemCallTraceReplayer.cpp:819-921 | happens-before for whole replays, stated on the log |
| RunAhead.CheckedStaysInWindow | src/SystemCallTraceReplayer.cpp:815-817 | a checked record is at most 150 numbers beyond one executed before it |
| RunAhead.RunKeepsWindow | src/SystemCallTraceReplayer.cpp:890-891 | the shared last number is always that of an executed record, although it is not updated atomically |
| Waits.ExecutorWaitsIff | src/SystemCallTraceReplayer.cpp:871-872 | the scan of the counters lets an executor go on exactly if all are at least ten a thread |
| Waits.ReaderWaitsIff | src/SystemCallTraceReplayer.cpp:845-851 | the scan makes the reader start a round exactly if some counter is at most a hundred a thread |
| Waits.NeverBothWait | src/SystemCallTraceReplayer.cpp:845-872 | in no state do both scans end in waiting |
| ReaderAlone.LoopRun | src/SystemCallTraceReplayer.cpp:757-790 | the loop of a batch ends by steps of the reader alone, with exactly so much read and counted, and no other type touched |
| ReaderAlone.RoundRun | src/SystemCallTraceReplayer.cpp:792-797 | so does a round: each counter was high, is of an exhausted type, or has been filled |
| ReaderAlone.FirstRun | src/SystemCallTraceReplayer.cpp:970-972 | the first batch of every type ends by steps of the reader alone, before any thread starts |
| Release.ReaderReleases | src/SystemCallTraceReplayer.cpp:842-854 | from every state the reader alone, without an executor's step, brings every counter above a hundred a thread |
| Release.ExecutorPasses | src/SystemCallTraceReplayer.cpp:871-875 | a thread anywhere in the wait goes on by its own steps when no counter is low or all streams are exhausted |
| Release.ExecutorSpins | src/SystemCallTraceReplayer.cpp:871-872 | and only then: otherwise its own steps lead back to the same state |
| Release.AllPass | src/SystemCallTraceReplayer.cpp:871-875 | all waiting threads go on, each by its own steps |
| Release.WaitsEnd | src/SystemCallTraceReplayer.cpp:842-875 | in every reachable state a run of the reader and then of the waiting threads ends every wait and changes nothing else about the threads |
| LostCall.GoneIsForever | src/SystemCallTraceReplayer.cpp:863-921 | once a thread has ended, no record of its process is executed in any continuation |
| LostCall.CallIsLost | src/SystemCallTraceReplayer.cpp:856-921 | a trace and a replay of it after which the child's call is executed in no continuation |
| Loader.BatchedHoldsOver | src/SystemCallTraceReplayer.cpp:734-790 | one batch leaves one record held, or exhausts the stream with everything pushed |
| Loader.BatchedFeeds | src/SystemCallTraceReplayer.cpp:851 | after one batch of 150 a thread every unfinished type has more than a hundred a thread |
| Loader.RoundsHoldOver | src/SystemCallTraceReplayer.cpp:734-797 | after batches of any sizes from 2 on, whatever the executors do to the counter in between, one record is held or the stream is exhausted with everything pushed |
| Loader.RoundsRead | src/SystemCallTraceReplayer.cpp:757-790 | such batches read what they want, to the end of the stream at most, which is marked exactly when they want more |
| Loader.SkippedIff | src/SystemCallTraceReplayer.cpp:741-744 | a batch passes a type over if and only if it is finished or its counter is above twice the batch size; any other is read on or finished |
| Loader.SyscallLoader.LoadSyscallModules | src/SystemCallTraceReplayer.cpp:644-686 | the first record of each type is read and pushed, with counter 1 |
| Loader.SyscallLoader.PrepareReplay | src/SystemCallTraceReplayer.cpp:693-732 | the record taken is the umask record 0, and the machine is at its start |
| Loader.SyscallLoader.Fill | src/SystemCallTraceReplayer.cpp:757-790 | the loop of a batch: how far it reads, what it pushes, and the counter |
| Loader.SyscallLoader.BatchSyscallModules | src/SystemCallTraceReplayer.cpp:734-790 | one batch, in closed form, as a run of the machine's reader; other types untouched |
| Loader.SyscallLoader.BatchForAllSyscalls | src/SystemCallTraceReplayer.cpp:792-797 | one batch for every type in any order; the heaps gain exactly the records pushed, once each |
| Loader.SyscallLoader.BeginRound | src/SystemCallTraceReplayer.cpp:792 | a round may have any batch size from 2 on |
| Loader.SyscallLoader.Refill | src/SystemCallTraceReplayer.cpp:851 | after a round every counter, of exhausted types too, is above a hundred a thread, so no executor has a reason to wait |
| Loader.SyscallLoader.EmptyAllocationQueue | src/SystemCallTraceReplayer.cpp:846-849 | the retired records are deleted, each once |
| Loader.SyscallLoader.ReaderThread | src/SystemCallTraceReplayer.cpp:842-854 | one turn of the reader's loop: which way it goes, and that every counter is high when it is over |
| Loader.SyscallLoader.CheckModulesFinished | src/SystemCallTraceReplayer.cpp:799-805 | whether all streams are exhausted |
| Loader.SyscallLoader.GetMinSyscall | src/SystemCallTraceReplayer.cpp:807-813 | the least counter |

## Left out

- Real system calls, trace files and prefetching, the concurrent containers, logging, option parsing and profiling: they are replaced by streams, a kernel map and atomic queues.
- Per-call wrappers without state (chmod, stat, link, rename, fsync and the like) and the other socket-like calls, which all add a simulated entry as `Socket` does.
- openat, fcntl, creat, readv and writev: openat would repeat open with a directory argument, and the others do not fit the threaded pipeline.
- Filling write buffers with pattern or random data, and the comparison of replayed with traced results.
- `validate_consistency`, which only compares the tables with the descriptors that are open and logs differences.
- The time conversions (floating point) and the return value of `delete_VM_node`, which is always false.
- Processes that share an address space: the address map is kept for each process id, as in the code, so it says nothing about what threads would see.
- The scan of the running table is one atomic step, although the program iterates over a table that changes; so is an execution, including the registration of a child.
- The deletion queue may be emptied in any order, and the null entries it also receives are not modelled.
- `setReplayerIndex` is called after the first record of a module was copied; the model gives that copy its index.
- `FileDescriptorEntry` objects are values inside their table; no code keeps a pointer to one.
- Reference counts are unbounded, where the program's have 32 bits; there are fewer processes.
- Traced calls that failed are left out for dup, dup2, dup3, clone and vfork, whose rows do not guard against them.
- FdSimulation.RunSimulates: assumes that the records are ones a kernel can produce, that the replay's kernel answers with descriptors that are not open (or fails), and that each record is a covered one; `FdLaws.StepKeepsIff` shows that the last condition cannot be weakened.
- FdSimulation.OpenKeeps: allows a slot that holds -1 where the kernel of the replay refuses the call; what a granted call stores is `FdContents.OpenStores`.
- FdContents.EverySlotNamesItsFile: for runs in which no such call was refused; descriptors below the claim `lo` are only said to be there.
- FdContents.ExitCloses: for pools whose reference counts are exact, which `FdLaws.CountsOverRuns` shows of every run with fresh names.
- FdSimulation.ExecveKeeps: for a successful execve of a process with a table of its own; otherwise the other sharers would lose the swept entries.
- ProcessRows.Replayer.Clone: is a step of `Descriptors` when every descriptor above 0 of the parent's table is open, which `ProcessRows.SimulatedIsOpen` shows for simulated states; for other tables it states what the dups did one by one, since a closed descriptor can be dup'd once another dup has reused its number.
- ProcessRows.Replayer.VFork: the same.
- ProcessRows.Replayer.ReplayRow: for the rows that `Descriptors` models, under the same conditions as `FdSimulation.StepKeeps`.
- Umasks.HistoryRefines: for histories in which threads ask for the umask; `Umasks.HistoryRefinesIff` shows that this is needed.
- Umasks.ModeRefines: the same.
- HappensBefore.RunInOrder: for runs in which the reader keeps ahead of each take, which the loader guarantees for one process only (`SingleProcess.SoloAhead`).
- SchedulerLaws.TraceOrderIsKept: covers the processes that were registered when the later call was validated, under the same condition.
- AddressMap.DeleteRemovesExactly: assumes ranges that do not wrap around; `AddressMap.MapDeleteExactIff` says exactly when that is needed.
- AddressMap.RunDenotes: the same for runs.
- VirtualAddressSpace.ProcessMapsDenote: for rows of the process whose ranges do not wrap around.
- Loader.SyscallLoader.BatchSyscallModules: for batch sizes of at least 2, the declared default 50 and those of both callers among them; with 1 no record would be held and the old one would be pushed again.
- Reuse of process ids: a trace in the scheduler's model creates each child once, and the runs of the counts and of the simulation take the id of a child to be unused.
- Loader.SyscallLoader.Refill: assumes that streams and the number of threads are small for 64-bit counters (`Release.Small`).
- Loader.SyscallLoader.ReaderThread: the same; it is the loop without steps of the executors, and a pass of the wait is one turn.
- Release.WaitsEnd: the same; it shows that a run out of the wait exists from everywhere, and leaves to the operating system that it runs the reader.
- Turns.TurnLogs: for a turn in which the thread is not interrupted and no counter makes it wait.
- Turns.SomeTurnLogs: for threads that have shown their record and not yet had it checked or executed; that a scheduler lets the thread run is left to the operating system.
- Completion.SingleProcessCompletes: shows that the end can be reached from everywhere, under the same limit on the size of the streams as `Release.WaitsEnd`.
