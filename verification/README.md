# Ensync, verified

A Dafny model of the core of Ensync, the directory synchroniser that compares a client, a
server and an ancestor (the state both were last known to share) and brings the two ends
together. `dafny verify dfyconfig.toml` checks the whole project.

## What is modelled

**One pass.** A *world* holds the three trees (a tree is a map from paths to file data, every
file inside a directory), the names condemned in the ancestor, and a log of what was done. A
*pass* is a run of the walk: directories are listed, their names are reconciled one by one,
subdirectories are entered, and a directory is completed after all that was entered below it.
Steps of different directories interleave in any order, and any step may be made to fail:
listing one end but not the other, a write to an end (with or without the directories above
it having been filled in), a rename, any part of bringing the ancestor up to date, marking a
directory clean, removing it, or being asked to stop.

| modules | contents |
|---|---|
| `Defs`, `Sets`, `AltName`, `Compute`, `Winners` | file data and modes, the free name of a split, the decision on one file and the end that it takes |
| `Replica`, `Mutate`, `Effects`, `Mutator` | what a replica promises, applying one decision, what that changes; the same in place, one operation after the other |
| `Walk`, `Structure`, `StructureKept`, `Regions`, `Outcomes`, `NameLoop` | the walk and what every step of it keeps |
| `Deletion`, `Settlement`, `Convergence`, `Permissions`, `Fixpoint`, `DataSafety`, `Crash`, `Recovery`, `Propagation`, `Termination` | theorems on whole passes and on sequences of passes cut short |
| `Protocol`, `ProtocolInv`, `ProtocolTasks`, `ProtocolKept`, `ProtocolWalk`, `ProtocolTheorems`, `ProtocolEnds` | the counters, flags and completion tasks by which threads carry out the walk |
| `WorkStack`, `TaskMap`, `Program` | the stack of tasks, the map of parked tasks, and `n` threads running the protocol off the stack |
| `MemoryReplica` | the replica held in memory, proved to keep the promises of `Replica` |
| `BlockXfer`, `BlockCache` | cutting a stream into blocks, putting it together from whatever is at hand |
| `Rules`, `RuleTrace`, `Reachability` | applying the rules, what that comes to, checking that every state can be reached |
| `Cbc` | directory files that can be appended to, in cipher block chaining as section 6.2 of NIST SP 800-38A has it |
| `CleanDirs`, `DirHash` | the table of clean directories, the running hash of a directory |

**The chain of results.** `NoThreadStuck` and `ProgramEnds` say that any number of threads
get through; every run of theirs is a run of the protocol, every run of the protocol is a run
of the walk (`ThreadsRefineWalk`), and runs of the walk have the properties that
`Convergence`, `Propagation`, `Permissions`, `Fixpoint`, `DataSafety` and `Recovery` prove. `ReturnedMeansDone`
puts the two ends of the chain together: once a thread has returned, success reported by the
root means that client and server agree at every path.

## Where a promise does not hold

Each of these is shown on a concrete input, and the exact condition is proved.

- **A second pass may undo the first.** Two files that differ only in modification time are
  left alone if the mode does not let the time be carried over, but the ancestor is set to the
  client's data all the same; the next pass takes the server for the changed side. It happens
  exactly in the modes that carry updates inward and not outward (`Compute.InSyncSettlesIff`,
  `Fixpoint.EchoHappens`); in all other modes, or without such a pair, a second pass changes
  nothing (`Fixpoint.SecondPassChangesNothing`).
- **An empty directory file cannot be appended to.** The first append is chained to the last
  block of the prefix, whereas decryption starts from the initial block in it
  (`Cbc.EmptyFirstChunkFails`; condition in `Cbc.AppendableRoundTrip`).
- **Renaming a file whose hash is not cached** leaves a directory hash that is not the one a
  fresh listing gives (`DirHash.UncachedRenameFails`; condition in `DirHash.Directory.Rename`).
- **A total of `UNKNOWN_HASH`.** A remembered file that cannot be read passes for one with
  that hash, so the transfer succeeds and leaves the destination empty
  (`BlockCache.UnknownTotalFools`; condition in `BlockCache.Client.XferFile`).
- **A block size of zero** yields no blocks, so the stream is lost (`BlockXfer.JoinBlocks`).
- **The decision is not symmetric.** Exchanging the ends and the two halves of the mode does
  not always exchange the decision: ties and edit conflicts are broken in favour of the client
  (`Compute.SymmetricIff` gives exactly the triples).
- **A deleted file may seem to come back.** Once a deletion has set a name free, a split in
  the same pass may give it to another file (`Propagation.FreedNameIsTaken`). That is the only
  way, and it takes a tilde in the path (`Propagation.DeletionsPropagate`).
- **Not every mode resolves everything, and some destroy content**: `Compute.DecisiveIff` and
  `Compute.GentleIff` give exactly the modes that do and that do not.

## Model

| member | source | states |
|---|---|---|
| Compute.DecisionShape | src/reconcile/compute.rs:170-452 | `Use` is for differing ends and never replaces an existing directory by an existing non-directory; `InSync` is only for ends with matching data; only two present, differing files are split; a split that moves the ancestor renames a directory that clashed with a non-directory, one that deletes it renames the server's file |
| Compute.DecisionPermitted | src/reconcile/compute.rs:207-452 | every create, update, delete and rename the decision calls for has its flag on |
| Compute.SpecialUntouched | src/reconcile/compute.rs:414-424 | with a special file on either end the decision is to leave both alone, `InSync` if they are equal and `Unsync` if not |
| Compute.DecisiveIff | src/reconcile/compute.rs:170-452 | a mode resolves every triple of non-special files (to `InSync`, `Use` or `Split`, so that the ends can agree) if and only if its flags meet a stated condition |
| Compute.GentleIff | src/reconcile/compute.rs:225-329 | a mode never destroys content that neither the ancestor nor the replacement has if and only if it forces no update and forces a delete only where the opposite create is on |
| Compute.InSyncSettlesIff | src/reconcile/compute.rs:296-329 | after `InSync` the same decision comes out next time, unless the ends differ only in time and the mode carries updates inward but not outward; then it is `Use(Server)` |
| Compute.EqualEndsInSync | src/reconcile/compute.rs:296-329 | equal ends are in sync whatever the ancestor and the mode |
| Compute.DoomedAgain | src/reconcile/compute.rs:225-265 | a directory that may be deleted is chosen for deletion as long as the other end lacks it and the ancestor has it, and choosing it again changes nothing |
| Winners.NewFile | src/reconcile/compute.rs:207-223 | a new file goes to the other end if it may be created there, else is deleted if that is forced, else stays alone |
| Winners.DeletedFile | src/reconcile/compute.rs:225-252 | a file gone from one end, with its content as recorded on the other, is deleted there if that is on, else restored if that is forced, else left |
| Winners.EditedAndDeleted | src/reconcile/compute.rs:253-265 | new content beats a deletion if it may be created, else a forced delete wins, else it is a conflict only if a delete or an update is on |
| Winners.OneChanged | src/reconcile/compute.rs:331-355 | of two ends the one that differs from the record is taken if updates go that way, else reverted if that is forced, else left; a directory in the way is renamed |
| Winners.TimeOnly | src/reconcile/compute.rs:296-329 | of two files that differ in time only the one with the news is taken if updates go that way, else reverted if that is forced, else both count as in sync |
| Winners.SomeoneHasNews | src/reconcile/compute.rs:296-304 | exactly one end has the news: the one that is not as recorded, or the newer, or the client |
| Winners.ContentOverMode | src/reconcile/compute.rs:371-391 | new content beats a new mode where updates go that way, else a forced update reverts it, else both are kept as creates allow |
| Winners.BothModes | src/reconcile/compute.rs:356-370 | of two new modes a forced one is taken, then any that may be carried over, the client's first |
| Winners.BothContents | src/reconcile/compute.rs:392-411 | of two new contents a forced one is taken, the newer if both are, the client's if they tie, else both are kept as creates allow |
| Compute.SymmetricIff | src/reconcile/compute.rs:170-452 | exchanging the ends exchanges the decision on exactly the triples that are not lopsided, a condition on the inputs |
| AltName.GenAlternateName | src/reconcile/compute.rs:35-69 | the new name is the stem up to its last tilde, or with a tilde added, then a number without leading zeroes, then the extension; the number is the first whose name is free, found within one try more than there are names in use |
| AltName.AlternateIsNumbered | src/reconcile/compute.rs:35-69 | the same of the name that a split is specified to give |
| AltName.NumberedIff | src/reconcile/compute.rs:44-60 | names of that form are exactly the candidates tried, one for each number |
| AltName.CandidateInjective | src/reconcile/compute.rs:35-69 | different numbers give different names |
| AltName.FirstFreeIsFirst | src/reconcile/compute.rs:35-69 | the specified name is free and all candidates before it are taken |
| AltName.AlternateKeepsShape | src/reconcile/compute.rs:26-69 | an alternate has the base and extension of its original, so suffixes do not pile up |
| Effects.AncestorEffect | src/reconcile/mutate.rs:38-101 | updating a record succeeds unless made to fail, touches nothing outside that file's tree, leaves the new record or, on failure, the old one with part of what was below it |
| Effects.EndEffect | src/reconcile/mutate.rs:162-273 | updating an end succeeds unless made to fail, changes that name only, and fills in missing directories only to create something |
| Effects.SplitEnds | src/reconcile/mutate.rs:513-625 | a split changes one end only, by renaming or not at all, and the log says so |
| Mutator.Mutator.RemoveRecursively | src/reconcile/mutate.rs:47-63 | deletes children before their directory; what is gone is closed downward; it succeeds, with everything below gone, if and only if as many operations work as there are files and directories to see to |
| Mutator.Mutator.ReplaceAncestor | src/reconcile/mutate.rs:39-101 | the record is set as specified, and succeeds if and only if it is right already, or the final write works and a directory that gives way can be emptied |
| Mutator.Mutator.ReplaceReplica | src/reconcile/mutate.rs:162-273 | the end and its table change together; a failed create leaves the directories made before it failed |
| Mutator.Mutator.TryRename | src/reconcile/mutate.rs:283-314 | tree and table are renamed together or neither is |
| Mutator.Mutator.TryRenameAncestor | src/reconcile/mutate.rs:283-314 | the same for the ancestor, condemned names below the renamed one moving along |
| Mutator.Mutator.ApplyUse | src/reconcile/mutate.rs:334-408 | the end is written before the ancestor; result, tables and trees are those of the specification |
| Mutator.Mutator.ApplySplit | src/reconcile/mutate.rs:513-625 | condemn or delete, rename the end, rename the ancestor, uncondemn, requeue both names, with a stop after any failure |
| Mutator.Mutator.ApplyReconciliation | src/reconcile/mutate.rs:422-656 | every decision is carried out as specified for the faults that happened; nothing goes wrong with the record if it can be set, the result is a failure if it cannot, and without faults all is done |
| Structure.StepLocal | src/reconcile/tree_walk.rs:98-176 | the step for a name, failed or not, reaches only the trees of that name and of its alternate, and leaves the tables truthful about both |
| StructureKept.RunKeeps | src/reconcile/tree_walk.rs:98-317 | in every state of every run the trees are well formed, tables agree with trees, queued names exist, and directories in progress are where they are believed to be |
| NameLoop.ProcessNames | src/reconcile/tree_walk.rs:283-311 | the loop over queued names ends, whatever the order and the faults, within one turn for each name and two more for each shared by the ends, and is a run of the walk |
| Crash.LoopProgress | src/reconcile/tree_walk.rs:98-176 | each turn lowers the work left; the name exists in some table; the alternate is unused in all three trees; a name that was split is shared by the ends no longer |
| Deletion.FaultlessRunsSucceed | src/reconcile/tree_walk.rs:577-708 | without injected faults no operation of any run fails: no directory to be removed is found non-empty, none is missing when entered |
| Deletion.RemovalOnlyWhenEmpty | src/reconcile/tree_walk.rs:679-708 | whenever the flags call for removing a directory it is empty on all three replicas and absent from the other end, faults or not |
| Convergence.RootSuccess | src/reconcile/tree_walk.rs:719-737 | the root's success means that nothing failed anywhere |
| Convergence.SuccessMeansAgreement | src/reconcile/tree_walk.rs:98-176 | in a decisive mode a drained pass with success at the root leaves the same files on both ends at every path, in every interleaving |
| Convergence.FaultlessAgreement | src/reconcile/tree_walk.rs:98-176 | every drained pass without faults is such a pass |
| Permissions.FlagsArePermissions | README.md:517-520 | in every run, faults included, everything logged was permitted by its flag, nothing made, replaced or removed a special file, and replaying the log turns the ends as they were into the ends as they are |
| Permissions.OffMeansUntouched | README.md:517-520 | with a direction off altogether that end never changes |
| Permissions.MirrorTheorem | src/reconcile/tree_walk.rs:1615-1640 | under `---/CUD` a drained pass without faults leaves the client as it was and makes the server agree with it everywhere, directory and file clashes included |
| DataSafety.NothingIsLost | src/reconcile/compute.rs:170-452 | in a gentle mode, at every moment of every run and whatever fails, the content of every file is on an end, or was the ancestor's record for that very file |
| Propagation.DecisionCarriedOut | src/reconcile/tree_walk.rs:98-176 | if the decision on what was at a path takes an end, then after a successful pass both ends have there what that end had, unless a split renamed something to or from there |
| Propagation.DeletionsPropagate | src/reconcile/compute.rs:225-265 | a file deleted on one end, with its recorded content on the other and deletes on, is on neither end afterwards, unless a split renamed something to that path; with no tilde in the path, without exception |
| Propagation.EditsPropagate | src/reconcile/compute.rs:296-352 | a file changed on one end only is on both ends as changed |
| Propagation.CreationsPropagate | src/reconcile/compute.rs:207-223 | a new file is on both ends |
| Propagation.CudDeletes | src/reconcile/compute.rs:225-265 | under `cud/cud` and without faults a file deleted on one end and unchanged on the other is on neither |
| Propagation.FreedNameIsTaken | src/reconcile/compute.rs:35-69 | a name that a deletion sets free is the one that the next split takes |
| Recovery.NothingIsLostOverCrashes | src/reconcile/mutate.rs:437-457 | over any number of passes, each cut short anywhere and in any gentle mode, content is on an end for ever, unless at the outset the file was on one end only and just as recorded |
| Crash.InterruptedUse | src/reconcile/mutate.rs:334-408 | after a `Use` that failed or was cut short anywhere, the ends are untouched at that name or already agree, and then any later pass in any mode decides `InSync` whatever the ancestor says |
| Crash.InterruptedSplit | src/reconcile/mutate.rs:513-625 | after a split cut short anywhere both files are intact under one name or the other, and after the next listing no record is paired with a file it was not made for |
| Fixpoint.SecondPassChangesNothing | src/reconcile/tree_walk.rs:1499-1522 | after a drained pass without failures, no later pass in that mode changes any tree, record or condemned name, unless the mode echoes and two ends differ only in time |
| Fixpoint.EchoHappens | src/reconcile/compute.rs:315-326 | in every such mode there is an input on which the second pass overwrites the client |
| Termination.PassesEnd | src/reconcile/tree_walk.rs:226-317 | no run of the walk is longer than a bound computed from the trees |
| ProtocolWalk.StepRefines | src/reconcile/tree_walk.rs:283-316 | every access by any thread keeps the invariant of counters, flags and tasks, and is a step of the walk or changes nothing of it |
| ProtocolTheorems.ThreadsRefineWalk | src/reconcile/tree_walk.rs:226-568 | every interleaving of the threads' accesses is a run of the walk |
| ProtocolTheorems.PendingExact | src/reconcile/tree_walk.rs:40-79 | `pending` is the number of outstanding children, plus one while the directory's own processing is unfinished |
| ProtocolTheorems.FetchFindsTask | src/reconcile/tree_walk.rs:559-568 | whoever brings a counter to zero finds that directory's completion task in the map and is the only one to look |
| ProtocolTheorems.CompletionOnceAndLast | src/reconcile/tree_walk.rs:462-504 | a completion task runs at most once, after all children have ended, and reads flags that are exactly the merged outcome of the directory and everything entered below |
| ProtocolTheorems.CleanMeansNoFailure | src/reconcile/tree_walk.rs:679-708 | a directory is marked clean or removed only if nothing failed in it or below it |
| ProtocolTheorems.NoDeadlock | src/reconcile/tree_walk.rs:462-568 | as long as a directory has not ended some access can be made |
| ProtocolTheorems.AfterTheLastTask | src/reconcile/tree_walk.rs:70-79 | at the end every directory's `pending` is zero, no task is left in the map, each completion task has run exactly once, and the reported success means that nothing failed |
| ProtocolTheorems.PassAchieves | src/reconcile/tree_walk.rs:719-737 | threads that can do no more have ended every directory; success in a decisive mode means agreement; without faults there is success |
| ProtocolEnds.ThreadsEnd | src/reconcile/tree_walk.rs:226-568 | the number of accesses is bounded by the trees |
| ProtocolEnds.PassCanEnd | src/reconcile/tree_walk.rs:226-568 | every beginning of a pass can be continued to an end |
| WorkStack.Stack.Push | src/work_stack.rs:61-65 | the task is put on top |
| WorkStack.LastInFirstOut | src/work_stack.rs:61-99 | the task pushed last is taken next, and leaves the stack as it was |
| WorkStack.Stack.Turn | src/work_stack.rs:73-99 | one turn under the lock takes the top task and counts it, or waits while others are busy, or returns |
| WorkStack.Stack.FinishAndTurn | src/work_stack.rs:73-99 | the count is lowered under the lock, and the next turn decides on the lowered count |
| WorkStack.EveryTaskOnce | src/work_stack.rs:61-99 | `in_flight` is the number of busy threads; no task is lost or doubled; once a thread returns everything pushed has been run exactly once and nobody waits |
| WorkStack.SomeoneCanAct | src/work_stack.rs:67-99 | until all threads have returned some thread that is not waiting can step: no wakeup is lost |
| WorkStack.ReturnedIsForGood | src/work_stack.rs:67-99 | once a thread has returned nothing is pushed or run again |
| WorkStack.RunsEnd | src/work_stack.rs:67-99 | the length of a run is bounded by what is pushed and by spurious wakeups |
| TaskMap.UnqueuedTasks.Put | src/reconcile/context.rs:63-73 | the search ends at an id that is free, wrap-around included, and no other task is disturbed |
| TaskMap.UnqueuedTasks.Get | src/reconcile/context.rs:75-77 | gives the task stored under the id and removes only it |
| Program.NoThreadStuck | src/reconcile/context.rs:91-93 | with any number of threads running the walk off the stack, until all have returned one can go on without a spurious wakeup |
| Program.ProgramEnds | src/reconcile/context.rs:91-93 | the threads take a number of steps bounded by the trees, the number of threads and the spurious wakeups |
| Program.ThreadsReturn | src/reconcile/context.rs:91-93 | every beginning can be continued until all threads have returned |
| Program.ReturnedMeansDone | src/reconcile/tree_walk.rs:70-79 | when the first thread returns every directory has ended, with `pending` zero and no task left, the root's success means that nothing failed, and in a decisive mode that the ends agree |
| Replica.Refusals | src/replica.rs:64-277 | a create over something, an update or a removal of something that is not as expected, and a removal or replacement of a directory that is not empty are refused |
| MemoryReplica.Memory.ListDir | src/memory_replica.rs:326-381 | condemned names are purged with all below them, the listing is what is left, a synthetic directory looks empty |
| MemoryReplica.Memory.Rename | src/memory_replica.rs:383-438 | tables keyed by path move to exactly the renamed tree, condemned names with them; a refused rename changes nothing |
| MemoryReplica.Memory.Remove | src/memory_replica.rs:440-476 | removes what the replica contract says, refusing mismatches and non-empty directories, and adds no condemned name |
| MemoryReplica.Memory.Create | src/memory_replica.rs:478-530 | makes the synthetic directories from the outside in, then the file; succeeds if and only if each directory is there or its parent is and its name is free, and then the file's own name is; a failure leaves exactly those made before it |
| MemoryReplica.Memory.Update | src/memory_replica.rs:532-591 | in place if the type stays, else through a temporary name; succeeds exactly if the contract allows it and that name is free |
| MemoryReplica.Memory.RmDirectory | src/memory_replica.rs:625-652 | removes an empty directory after purging its parent |
| MemoryReplica.Memory.CondemnName | src/memory_replica.rs:682-691 | adds one condemned name and changes no file |
| MemoryReplica.Memory.UncondemnName | src/memory_replica.rs:693-702 | takes one condemned name back and changes no file |
| BlockXfer.BlocksShape | src/block_xfer.rs:116-163 | blocks are non-empty, all but the last are full, and there are none exactly for empty input or block size zero |
| BlockXfer.JoinBlocks | src/block_xfer.rs:116-236 | joining the blocks gives the stream back if and only if the block size is positive or the stream empty |
| BlockXfer.SameTotal | src/block_xfer.rs:86-163 | with injective hashes the total alone identifies the list of blocks |
| BlockXfer.ReceivedIsSent | src/block_xfer.rs:116-236 | with injective hashes, blocks that pass for those of a stream join to it |
| BlockXfer.Fill | src/block_xfer.rs:130-145 | whatever the pattern of short and interrupted reads, the buffer is filled to its end or the stream's |
| BlockXfer.StreamToBlocks | src/block_xfer.rs:116-163 | for every pattern of reads the block list and the blocks handed on are those of the stream; an abandoned run has handed on a prefix |
| BlockCache.Client.FetchBlockLocal | src/posix/replica.rs:1137-1164 | never gives data without the hash asked for, gives the block if it is where the cache says, and drops a cache entry that does not hold |
| BlockCache.BlockAtIsBlock | src/posix/replica.rs:1137-1164 | the part of a file that is read is the block of that number |
| BlockCache.Client.XferBlock | src/posix/replica.rs:1120-1130 | gives the block that is here, or data with the right hash, or whatever the remote gives |
| BlockCache.Client.BlocksToStream | src/block_xfer.rs:179-236 | success means that exactly blocks with the listed hashes and total were written, and a source that serves them makes it succeed |
| BlockCache.Client.CopyFileLocal | src/posix/replica.rs:1074-1113 | success means a file with the total asked for was written, except for an unreadable file and `UNKNOWN_HASH`; it does succeed if the remembered file has that total and can be read; failure drops the cache entry |
| BlockCache.Client.XferFile | src/posix/replica.rs:1038-1066 | on success the destination holds exactly the content the list was made from, whatever the caches and files say and after a failed local copy, unless the total is `UNKNOWN_HASH` and the remembered file cannot be read through |
| BlockCache.UnknownTotalFools | src/posix/replica.rs:1074-1113 | any non-empty stream whose total comes out as `UNKNOWN_HASH` meets that exception and is lost |
| Rules.ApplyRules | src/rules/engine.rs:624-639 | the settings are those of the pure interpreter |
| Rules.ApplyRulesImpl | src/rules/engine.rs:649-697 | ends for every include graph, restores `occurs` on every way out, and equals the pure interpreter with the set of states being visited |
| Rules.ApplyList | src/rules/engine.rs:649-697 | the same for the rules of one state, both kinds of stop included |
| RuleTrace.SettingsAreLastReached | src/rules/engine.rs:649-697 | the mode, the trust and the switch are those of the last such actions reached, or as they were; an action is reached if every stop reached before it only returned, from a state that has ended since |
| RuleTrace.StopAllIsFinal | src/rules/engine.rs:686-691 | nothing after a `stop = "all"` is reached, at whatever depth of includes |
| RuleTrace.TrailingReturn | src/rules/engine.rs:686-687 | `stop = "return"` at the end of a state changes nothing for what includes it |
| RuleTrace.RuleAt | src/rules/engine.rs:664-669 | the actions of a rule that matches stand between those of the rules before and after it |
| RuleTrace.ActionAt | src/rules/engine.rs:669-693 | an action stands between those before and after it, an include as the states included |
| RuleTrace.SubAt | src/rules/engine.rs:675-684 | an included state stands between those before and after it |
| RuleTrace.StateKnown | src/rules/engine.rs:332-377 | every state entered or switched to from a reachable state is one that the check for reachability marks |
| RuleTrace.SwitchKnown | src/rules/engine.rs:332-377 | so is the state that a switch leaves pending |
| Rules.Engine.ApplySwitch | src/rules/engine.rs:174-178 | a pending switch takes effect once |
| Rules.Builder.Contains | src/rules/engine.rs:754-761 | marks exactly the sibling rules that some file seen so far matches |
| Rules.Builder.Build | src/rules/engine.rs:763-774 | the engine's settings are a function of the rules, the path and the files seen |
| Rules.OrderDoesNotMatter | src/rules/engine.rs:753-775 | of the files seen only the set counts, not order or repetition |
| Reachability.EdgeIff | src/rules/engine.rs:332-377 | one state leads to another if and only if some action of a rule of its file or sibling group includes it or switches to it |
| Reachability.CheckReachable | src/rules/engine.rs:332-377 | the loop ends and marks exactly the states that a chain of includes and switches leads to from `root`; a rule set is accepted if and only if these are all |
| Cbc.CryptStream | src/server/crypt.rs:620-664 | however the input arrives in the buffer, the output is that of one pass over the whole; it succeeds if no read is interrupted or fails |
| Cbc.WriteCbcPrefix | src/server/crypt.rs:677-694 | session key and initial block are written encrypted under the master key |
| Cbc.ReadCbcPrefix | src/server/crypt.rs:696-718 | the first two blocks decrypt to session key and initial block |
| Cbc.EncryptWholeDir | src/server/crypt.rs:776-790 | prefix and encrypted data are written and the session key returned |
| Cbc.EncryptAppendDir | src/server/crypt.rs:797-839 | the file grows by the data encrypted from its own last block |
| Cbc.DecryptWholeDir | src/server/crypt.rs:815-830 | gives the session key and the data that opening the file is specified to give; fails on a file without a whole prefix |
| Cbc.RoundTrip | src/server/crypt.rs:620-664 | decryption undoes encryption under the same key and initial block |
| Cbc.EncryptEquation | src/server/crypt.rs:620-664 | each block of cipher text is the encryption of its plain text masked by the block before it, or by the initial block |
| Cbc.EncryptAppend | src/server/crypt.rs:797-839 | encrypting in two goes, chained by the last ciphertext block, is encrypting at once |
| Cbc.AppendableRoundTrip | src/server/crypt.rs:776-839 | after any aligned appends the whole file opens to the same session key and the concatenation if and only if the first chunk was not empty, or nothing was appended, or the prefix ends in the initial block |
| Cbc.EmptyFirstChunkFails | src/server/crypt.rs:776-839 | an input on which it does not |
| CleanDirs.CleanTable.SetDirClean | src/posix/dao.rs:104-123 | one record is added |
| CleanDirs.CleanTable.SetDirDirty | src/posix/dao.rs:125-157 | the records of the path and of everything above it go, and no others |
| CleanDirs.CleanTable.IsDirClean | src/posix/dao.rs:159-192 | a directory is clean if and only if it or something above it has a record |
| CleanDirs.DirtyExactly | src/posix/dao.rs:125-192 | after a directory is marked dirty, exactly the directories with a record at or above them that does not cover it stay clean |
| CleanDirs.CleanExactly | src/posix/dao.rs:104-192 | marking a directory clean makes exactly it and everything below clean |
| DirHash.DirHandle.ToggleFile | src/posix/dir.rs:168-208 | the hash is that of the entries toggled an odd number of times |
| DirHash.DirHandle.ResetHash | src/posix/dir.rs:139-142 | starts again from no entries |
| DirHash.OddMeansOdd | src/posix/dir.rs:168-208 | an entry counts if and only if it was toggled an odd number of times |
| DirHash.TotalAny | src/posix/dir.rs:168-208 | the order of the entries does not matter |
| DirHash.Directory.List | src/posix/replica.rs:283-333 | whatever the order of listing, the hash is that of the contents |
| DirHash.Directory.Create | src/posix/replica.rs:403-435 | the hash stays that of a fresh listing |
| DirHash.Directory.Remove | src/posix/replica.rs:389-401 | the hash stays that of a fresh listing |
| DirHash.Directory.Update | src/posix/replica.rs:437-540 | the hash stays that of a fresh listing |
| DirHash.Directory.Rename | src/posix/replica.rs:335-387 | for digests that tell entries apart the hash stays that of a fresh listing if and only if the file's hash is cached or it has none |
| DirHash.UncachedRenameFails | src/posix/replica.rs:335-387 | a file and two names for which it does not |

## Left out

- Skipping of clean directories (src/reconcile/tree_walk.rs:399-450): every pass enters every directory; the table of clean directories is modelled on its own.
- `trust_client_unix_mode = false` (src/reconcile/tree_walk.rs:113-119): the `old` value given to a replica then carries another replica's mode.
- A mode that varies within a pass: the rules engine is modelled on its own, and the walk has one mode per pass.
- Edits from outside during a pass, and content that does not have the hash it was listed with: an end that accepts a write holds the data it was given.
- Reconciling one file is one step between threads: `Structure.StepLocal` shows that such a step reaches only its own names, and `Crash` and `Recovery` cover every point within it.
- Special files on the ends, in the theorems on agreement only; the production ancestor refuses to record them (src/ancestor/replica.rs:198-200).
- The conflict a decision carries along, which is only logged (src/reconcile/compute.rs:138-161).
- The order of the `todo` heap and, in `Protocol`, last-in first-out order of tasks: the theorems hold for every order.
- The in-memory replica purges the parent in `rmdir` (`MemoryReplica.Memory.RmDirectory` has it); the walk does not, as the production ancestor does not list the parent there (src/ancestor/replica.rs:403-418).
- The production ancestor's database, SQL, and its dropping of file sizes.
- The 32-bit width of `in_flight`.
- Write errors while blocks are put together or streams encrypted.
- Cbc.CryptStream: requires whole blocks, as the doc comment of `encrypt_whole_dir` demands; a ragged end makes the source panic on encryption and pad with zeroes on decryption, and neither is modelled.
- Ciphers, hashes, regular expressions and the contents of conditions are parameters.
- MemoryReplica.Memory.Create: refuses a synthetic directory whose parent is missing; the source then makes a table that nothing lists (src/memory_replica.rs:489-512), which no handle of the walk leads to.
- MemoryReplica.Memory.Update: says nothing of condemned names; in the program only the ancestor has any, and a name is condemned only for the time of a split.
- MemoryReplica.Memory.RmDirectory: says nothing of condemned names below the directory, which go with it.
- Server storage, key management, configuration, the dry-run wrapper, the command line and all real input and output.
