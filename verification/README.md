# A verified model of the TensorPlate management agent

The agent deploys model bundles onto one host: it keeps its state in two files, drives deploy and
rollback transactions against them, and owns the serving worker processes. This project models the
parts of `agent/src` whose correctness is hard to see, as Dafny definitions, and proves what they
promise over every input, every interleaving and every crash. Nothing here runs the agent.

`dafny verify dfyconfig.toml` checks the whole project.

## What is modelled

**The state store** (`Records`, `StateStore`, `StoreLaws`, `StoreRuns`, `OlderReader`). Each of the
two state files is missing, empty, damaged, unreadable, of an unsupported version, or holds a state.
A write goes through temp file, rename and directory sync of each file in its order, and may fail at
any of the six calls. A kill leaves every completed rename visible; a power loss keeps or loses each
rename that was not synced on its own. `Store` is the store as a class, with the loop over the two
files; `Updated` is what one update comes to, and the laws are proved of it over whole runs.

**Transactions, documents and starts** (`Changes`, `Recovery`, `AgentSystem`, `AgentLaws`,
`AgentRuns`, `AgentDocuments`, `CleanRuns`). A deploy and a rollback are programs of actions; every
state write of an action goes through the store and may end anywhere; a supervision thread takes
generations and re-stamps the active record in between; descriptor documents are written inside the
update that names them, with a sync of the directory they share with the state files; a kill or a power loss, in any mixture, may come between any two steps or,
through the store, inside any write; a start prunes, settles what it finds and restores. History
variables remember, for the memory and for every state whose write was tried, the pair of records its
last transaction began from and the pair its commit wrote.

**The member registry** (`Registry`, `RegistryMembers`, `RegistrySystem`, `RegistrySteps`,
`RegistryLaws`, `RegistryTokens`, `RegistryOrder`, `RegistryLeases`, `RestartBudget`,
`RegistryRuns`, `RegistryClean`, `RegistryLate`). Every lock section and every call outside the lock
is one event of a transition system with a transaction thread, a supervision thread that also stops
the agent, the abandon a transaction that has handed over still sends, and worker processes that exit
when they like. `MemberTable` is what the lock guards as a class whose methods are proved equal to the
sections the system is built from. `RegistrySteps` sorts the events into the few ways they move
members; the laws are proved of those.

**Fences, retirement, control channel, retry, names, ports** (`Fences`, `Retirement`,
`ContactMonitoring`, `ControlChannel`, `Retry`, `FileNames`, `Ports`). Each has its own state, its
loops as methods with invariants, and its laws.

Clock readings, answers of workers and of the disk, verification of bundles and the health probe are
parameters of the events: every theorem holds whatever they are.

## Where the code and what is said of it differ

- A rollback reads the previous record before it begins its transaction. If another transaction
  replaced that record in between, the rollback between records that name no descriptor commits and
  is yet read as not committed by the next start; `CleanRuns.AStaleRollbackIsReadAsUncommitted` is
  such a run, and `AgentLaws.CommitIsReadFromTheRecords` gives the exact condition.
- A start prunes the documents that neither state file shows a name for, before it writes anything.
  When the rename it read was left unsynced by a kill, a power loss can still bring back a state whose
  document is gone: `AgentDocuments.APruneMayLoseADocument` gives such a run over every agent whose
  active record alone names its document, and `PrunesKeepDocumentsExactlyWhen` the exact condition.
  Nothing but a prune puts a document at risk: `NamingsAreCareful` and `CarefulPrunesAreEnough`, from
  any agent that can read nothing ahead of what it hands out next, as after a start over an empty
  directory, after a power loss or after a synced write (`NoneIsAheadOfADurableStart`).
- An update answered with a plain error, which says that nothing was written, is read by a later start
  when its unsynced backup rename meets an unsynced first rename of the primary file that a kill left
  behind: `StoreRuns.APlainErrorMayBeRead`, with the exact condition in
  `StoreRuns.PlainErrorsAreReadExactlyWhen`.
- A failed transaction is cleared from the store before its thread gives the candidate up. A
  transaction that begins in between can have its fence lifted by the reopen of the first;
  `Fences.ALateReopenLiftsTheNextFence` is such a run, and `Fences.FencesHoldExactlyWhen` says, of
  the state in which the fence is answered, when no activate can reach the member.
- The same delay lets the first transaction's abandon mark the second one's candidate, when both
  deploy the same id. `activate` does not look at the mark, so a restart can then take the serving
  slot above the candidate and the activate move it down. It can exactly when the second transaction
  has fenced, and a member serves or is owed a restart that its next step does not give up:
  `RegistryLate.ALateAbandonMovesTheSlotDown` and `RegistryLate.LateAbandonsAreHarmlessExactlyWhen`.
  Over every run without such a hit the slot only moves up: `RegistryRuns.ServedGenerationsRise`.
- Under power losses a legacy write whose two best-effort directory syncs both failed can leave an
  older agent running on a state this agent does not read;
  `OlderReader.AnOlderAgentMayRunAheadAfterAPowerLoss` and `PowerLossKeepsThePairSafeUnless`. Over
  every run without such a write the two agree: `OlderReader.OlderAgentsAgreeThroughPowerLosses`.
- The comment at `agent/src/main.rs:628-637` says that slower hosts never get fewer attempts. They
  do from two and a half seconds an attempt on: `Retry.SlowHostsGetFewerAttempts`. The model follows
  the code.

## Model

| member | source | states |
|---|---|---|
| `StateStore.Store.OpenAt` | agent/src/state.rs:158-190 | the store is refused exactly when the primary file cannot be told, is damaged beside a backup without a state, or is absent beside a backup that cannot be read as one, with the error of the file that decides; otherwise it starts on the primary's state, else the backup's, else a fresh one, and knows whether the primary was read |
| `StateStore.Store.WriteStateFiles` | agent/src/state.rs:300-340 | the loop over the two files leaves the disk, the failure and the latch that the step-by-step reference gives, whatever call fails, with the commit rename moving to the backup when the primary was not the file read |
| `StateStore.Store.Update` | agent/src/state.rs:270-297 | an update leaves memory, disk, latch and answer as the one-update reference says: refused when latched, when the change is refused or when the successor is not valid, and otherwise what the write came to |
| `StateStore.Store.Files` | agent/src/state.rs:213-245 | the states listed are exactly those the two files hold; it is an error exactly when a file is unreadable or at an unsupported version |
| `StoreLaws.LaterWriteEnds` | agent/src/state.rs:131-137 | where every failure of a later-version write stops it: backup first, each directory sync required before going on |
| `StoreLaws.LegacyWriteEnds` | agent/src/state.rs:300-332 | where every failure of a 0.1 write stops it: primary first, directory syncs stop nothing |
| `StoreLaws.WriteOutcome` | agent/src/state.rs:300-340 | under kills and under power losses: a write that succeeds is what every next start reads, one that fails before its commit rename changes nothing a start reads, one that fails after it leaves the old or the new state, and after a kill the new one |
| `StoreLaws.UpdateOutcome` | agent/src/state.rs:270-340 | over a store whose files and memory agree under the crash kind: Ok makes the new state the one every next start reads; a plain error leaves memory and what a start reads unchanged; an error at or after the commit rename latches the store, with a start reading one of the two; a latched store changes nothing |
| `StoreLaws.WritesReadNothingElse` | agent/src/state.rs:300-340 | stopped anywhere, and whatever kills left unsynced before it, a write lets the next start read what it could read before or the new state, and no power loss leaves a pair that does not open |
| `StoreLaws.AnswersAreDurable` | agent/src/state.rs:300-340 | whatever happened before it, an update answered Ok once a counter is recorded is what every next start reads, a power loss included |
| `StoreRuns.RunsKeepTheStory` | agent/src/state.rs:158-190 | over every run of updates failing anywhere, files and memory agree until the store latches, and from then on neither file changes again |
| `StoreRuns.KillsAreFaults` | agent/src/state.rs:300-332 | a kill between any two of the six calls of a write leaves exactly what some failing write leaves |
| `StoreRuns.TakesAreDurable` | agent/src/registry.rs:2374-2382 | once a generation is returned, both files and every content a power loss could bring back have a counter past it |
| `StoreRuns.GenerationsNeverRepeat` | agent/src/state.rs:25-41 | over every run of writes, failures, kills, power losses and starts the generations returned strictly increase |
| `StoreRuns.PlainErrorsAreReadExactlyWhen` | agent/src/state.rs:300-340 | an update answered with a plain error is read by some later start if and only if its backup rename was done and its first sync failed while a power loss could still pass the primary file over |
| `StoreRuns.APlainErrorMayBeRead` | agent/src/state.rs:320-340 | a run of two writes, a kill and a power loss over a missing primary file in which that happens |
| `OlderReader.ReadersAgree` | agent/src/state.rs:16-24 | over a pair without a later-version primary beside a backup the older agent decodes, the older agent runs exactly on the 0.1 states this agent reads, and on the same one |
| `OlderReader.WritesKeepThePairSafe` | agent/src/state.rs:300-328 | no interruption of any write leaves such a pair |
| `OlderReader.OlderAgentsReadTheSameState` | agent/src/state.rs:131-137 | over every run of interrupted writes, kills and starts from a safe pair, whenever this agent could start the older one refuses or reads the same 0.1 state |
| `OlderReader.PowerLossKeepsThePairSafeUnless` | agent/src/state.rs:344-356 | under power losses a write keeps the pair safe if and only if it is not a legacy write, over a later-version primary, whose two renames happened and whose two syncs failed |
| `OlderReader.EventsKeepThePairSafeUnless` | agent/src/state.rs:270-328 | over a pair that is safe whatever a power loss brings back, an update, a taken generation, a kill, a power loss or a start keeps it so if and only if it is not such a write |
| `OlderReader.OlderAgentsAgreeThroughPowerLosses` | agent/src/state.rs:131-137 | over every run that mixes interrupted writes, kills, power losses and starts, none of them such a write: whatever the next crash leaves, whenever this agent could start the older one refuses or reads the same 0.1 state |
| `OlderReader.AnOlderAgentMayRunAheadAfterAPowerLoss` | agent/src/state.rs:320-328 | such a write is answered Ok, and after a power loss the older agent runs on a state this agent does not read |
| `Recovery.SettlingIsNeverRefused` | agent/src/recovery.rs:239-277 | the one write that settles any state a start reads is accepted by the store, leaves no transaction and no candidate, moves neither record and keeps the counter |
| `Recovery.OnlyUncommittedTransactionsAreQuarantined` | agent/src/recovery.rs:147-221 | a start quarantines the transaction, with its failure as last error, exactly when the records show no commit and it is not a rollback already recorded failed |
| `AgentLaws.CommitIsReadFromTheRecords` | agent/src/recovery.rs:63-103 | a transaction in flight is read as committed if and only if its commit write is in the state, a re-stamp since included; for a rollback between records that name no descriptor moreover if and only if the record it read was still the previous one as it began |
| `AgentLaws.WritesStaySound` | agent/src/state.rs:270-297 | after one update of the agent, whatever an earlier kill left unsynced, every state a kill or a power loss may leave is one the agent tried to write and follows its transaction's trail |
| `AgentRuns.CommitsAreSteps` | agent/src/state.rs:508-544 | a promote or a swap writes the pair its kind of transaction owes to the pair it began from, and leaves the journal promoted |
| `AgentRuns.NamesAreSteps` | agent/src/descriptor_store.rs:486-676 | naming a deploy records a fresh generation in candidate and journal together, and naming a rollback a fresh generation of the previous record's configuration in the journal, with the records still those the transaction began from |
| `AgentDocuments.NamesAreDocumented` | agent/src/descriptor_store.rs:588-676 | a state that names a new generation is proposed only after its document is on disk, with exactly the named identity |
| `AgentRuns.RestampsKeepTheInvariant` | agent/src/descriptor_store.rs:782-828 | a restart's stamp, at any point of a transaction, keeps every state a start may read recoverable |
| `AgentRuns.CommitsAreRefusedOnlyOverAnotherRecord` | agent/src/state.rs:632-711 | the store refuses no deploy's commit, and a rollback's if and only if it read a record that names no descriptor and began over one that does, or over none |
| `AgentRuns.EventsKeepTheInvariant` | agent/src/coordinator.rs:345-625 | every step of a transaction, every store failure, every kill, power loss, start, prune, settle, restore and restart keeps the agent's invariant |
| `AgentRuns.RunsKeepTheInvariant` | agent/src/coordinator.rs:644-796 | the invariant holds over every run of such events, kills and power losses mixed |
| `AgentRuns.EveryStartSettles` | agent/src/recovery.rs:147-277 | wherever a deploy or rollback was killed, lost its power or failed, inside any write included, and however kills and power losses mixed before: every start reads a state the agent tried to write (after a kill the memory or the state that latched the store, after a power loss the memory if the last write was synced), settles it in at most one accepted write, and leaves no transaction, no candidate and the pair of records from before its transaction or the pair its commit wrote, up to a later generation of the same configuration |
| `AgentRuns.EveryStartTellsTheCommit` | agent/src/recovery.rs:63-103 | in every state a start can read after any such run, `committed` is true exactly when the commit write is in that state, under the rollback condition above |
| `AgentDocuments.UpdatesKeepDocuments` | agent/src/descriptor_store.rs:588-676 | an update that removes and writes over no document which a state a start may read names leaves every such state with its documents on disk and durable, the new one included |
| `AgentDocuments.PrunesKeepDocumentsExactlyWhen` | agent/src/descriptor_store.rs:346-423 | a start's pruning leaves every state a later start may read, a power loss's included, with its documents if and only if none of those states names a document that goes |
| `AgentDocuments.APruneMayLoseADocument` | agent/src/main.rs:830-840 | over every agent whose active record alone names its document: a run with a restart, one failed sync, a kill, a prune and a power loss after which a start reads a record whose document is gone |
| `AgentDocuments.NamingsAreCareful` | agent/src/descriptor_store.rs:588-676 | in an agent that can read nothing ahead of what it hands out next, no event but a prune removes or writes over a document that a state a start may read names |
| `AgentDocuments.EventsPutNoneAhead` | agent/src/descriptor_store.rs:226-251 | no event, failed, killed or cut off by a power loss, lets a later start read a state that names a generation still to be handed out or stamped |
| `AgentDocuments.NoneIsAheadOfADurableStart` | agent/src/state.rs:158-190 | nothing is ahead of an agent whose start read what is durable |
| `AgentDocuments.EveryStartFindsItsDocuments` | agent/src/descriptor_store.rs:227-251 | over every run of failed document and state writes, re-stamps, commits, prunes, kills and power losses in which no document goes that a state a start may read names: every document the next start's records name is on disk with exactly the named identity |
| `AgentDocuments.CarefulPrunesAreEnough` | agent/src/descriptor_store.rs:346-423 | from an agent that can read nothing ahead, the same over every such run whose prunes alone are held to that |
| `CleanRuns.CleanDeploysCommit` | agent/src/coordinator.rs:345-625 | a deploy that nothing hinders ends with its candidate active, the replaced record previous, and no transaction |
| `CleanRuns.CleanRollbacksCommit` | agent/src/coordinator.rs:644-796 | a rollback that nothing hinders ends with the previous record active, under a later generation of its configuration if it names one, and the replaced one previous |
| `CleanRuns.AStaleRollbackIsReadAsUncommitted` | agent/src/coordinator.rs:644-697 | a rollback whose record was replaced between its read and its begin commits and is read as not committed |
| `RegistryMembers.MemberTable.Take` | agent/src/registry.rs:803-807 | the generation is no longer in the map, a member is returned exactly when it was, and the number of members in the map and outside it is unchanged |
| `RegistryMembers.AdmittingUndoesTaking` | agent/src/registry.rs:803-812 | admitting a member that was taken gives back the registry it was taken from, its outside count included |
| `RegistryMembers.MemberTable.OweRestart` | agent/src/registry.rs:1867-1915 | the loop that drops restarts which left the window, then the next due time or giving up, as the recursive reference says |
| `RegistryMembers.MemberTable.Activate` | agent/src/registry.rs:2046-2070 | the deployment's candidate serves and the slot it had is empty; no generation is lost from the map and the draining list together; the map still holds exactly the two slots; what served before is draining and retiring |
| `RegistryMembers.MemberTable.Unload` | agent/src/registry.rs:2159-2175 | neither slot, no member of the map and no restart names the deployment any more, no generation is lost from the map and the draining list together, and the map still holds exactly the two slots |
| `RegistryMembers.MemberTable.StopAll` | agent/src/registry.rs:2261-2278 | a stop leaves the map, the slots and the retiring list empty and every member draining, and returns those it has to stop itself |
| `RegistrySteps.LaunchStepsMove` | agent/src/registry.rs:1086-1190 | every step of a launch takes at most one generation, counts itself as outside exactly while it goes on, starts at most one process, and passes a restart's check only while no deploy holds |
| `RegistrySteps.TxStepsLeaveSupervision` | agent/src/registry.rs:1917-2180 | no step of a transaction touches the supervision thread or a stop, and none but an activate or an unload touches restarts |
| `RegistryLaws.SupMovesKeepPlaces` | agent/src/registry.rs:1752-1839 | the supervision thread's steps keep the map equal to the two slots, a due, in-hand or failed restart beside an empty slot, and every generation in one place |
| `RegistryLaws.ActivatingKeepsPlaces` | agent/src/registry.rs:2046-2070 | promoting a candidate keeps the same |
| `RegistryTokens.ReapingKeepsTheCount` | agent/src/registry.rs:1845-1857 | dropping a reaped member lowers the outside count by exactly its one token, and not for a member the stop itself took |
| `RegistryTokens.NothingRunsAfterAStop` | agent/src/registry.rs:2279-2299 | when a stop is over with nothing counted outside, no member and no process is left |
| `RegistryOrder.TakingHoldsRestartsOff` | agent/src/registry.rs:814-820 | from the generation taken under a hold to the candidate's admission, the registry counts as held by a deploy |
| `RegistryOrder.SupMovesStayBelow` | agent/src/registry.rs:1752-1839 | while a deploy holds restarts off, or its candidate is fenced and no restart can come, no step of the supervision thread brings a generation past the candidate's |
| `RegistryOrder.HandedGenerationsAreAdmissible` | agent/src/registry.rs:822-849 | a generation taken under a hold is above every member, every draining one and the one a restart is owed for when it reaches the check |
| `RegistryOrder.TakenGenerationsAreAdmissible` | agent/src/registry.rs:826-834 | a generation the registry takes itself is never one it is running |
| `RegistryOrder.SupMovesKeepOrder` | agent/src/registry.rs:1752-1839 | the supervision thread's steps keep every served and stamped generation below the counter, a generation taken for a candidate above them, and the serving slot on its way up |
| `RegistryOrder.ServingKeepsOrder` | agent/src/registry.rs:1795-1808 | a restart that takes the serving slot is above every generation that had it |
| `RegistryLeases.YieldingKeepsLeases` | agent/src/registry.rs:1809-1819 | a restart that yields to a deploy shares its ports with nothing but the restart it is owed again |
| `RegistryLeases.NoTwoWorkersShareALease` | agent/src/registry.rs:184-229 | in a kept state two running workers never hold the same lease of the pool |
| `RegistryRuns.EventsKeepInv` | agent/src/registry.rs:508-524 | every event of either thread, and every late abandon, keeps slots, places, token count, live processes, order and leases; and all but an abandon that hits an exposed candidate keep the serving slot on its way up |
| `RegistryRuns.RunsKeepInv` | agent/src/registry.rs:796-812 | they hold over every interleaving |
| `RegistryRuns.ServedGenerationsRise` | agent/src/registry.rs:1752-1839 | over every interleaving in which no late abandon hits a fenced candidate while a member serves or is owed a restart, the generations that take the serving slot strictly increase |
| `RegistryRuns.HandedGenerationsPassTheCheck` | agent/src/registry.rs:1086-1125 | after any run, a launch with a handed generation passes the check unless a stop has begun |
| `RegistryRuns.OnlyAnActivateServesUnderAHold` | agent/src/registry.rs:1752-1808 | while a hold or a live candidate stands, nothing but the transaction's activate puts a generation in the serving slot |
| `RegistryRuns.FencedCandidatesAreActivated` | agent/src/registry.rs:2046-2077 | after any run, a transaction that was fenced finds its candidate when it activates, unless a stop has begun, and what it replaces is draining and retiring |
| `RegistryRuns.SlotsNameTheMembers` | agent/src/registry.rs:643-694 | at every lock release before a stop the map holds exactly the serving and candidate generations, which differ, and a due, in-hand or failed restart leaves the serving slot empty |
| `RegistryRuns.NothingIsAdmittedAfterAStop` | agent/src/registry.rs:1951-1966 | once the stopping flag is set, whatever both threads still do, the map and the slots stay empty |
| `RegistryRuns.NothingRunsOnceAStopReturned` | agent/src/registry.rs:2261-2299 | when a stop returned with nothing counted outside, no worker runs and none is ever started again |
| `RegistryRuns.WorkersDoNotShareLeases` | agent/src/registry.rs:211-229 | over every interleaving no two running workers hold the same lease |
| `RegistryRuns.WorkersHoldLeasesOfThePool` | agent/src/registry.rs:198-208 | over every interleaving every running worker holds a lease of the pool |
| `RegistryRuns.WorkersDoNotSharePorts` | agent/src/registry.rs:184-229 | over every interleaving and every accepted configuration no two running workers listen on the same HTTP or stream port |
| `RegistryClean.DueRestartsServe` | agent/src/registry.rs:1752-1808 | a restart that is due and that no deploy holds off serves under the next generation, on the ports it was owed, counted once |
| `RegistryClean.StoppedMembersAreOwed` | agent/src/registry.rs:1641-1696 | a serving member that stopped leaves slot, map and count as before it, and is owed a restart after the delay its count in the window gives, or is given up |
| `RegistryClean.UnhinderedDeploysServe` | agent/src/registry.rs:1917-2077 | from every reachable state before a stop, a deploy that nothing hinders drops the candidate an earlier one left, serves under the next generation on the ports it leased, and leaves the replaced member draining and retiring |
| `RegistryLate.LateAbandonsAreHarmlessExactlyWhen` | agent/src/registry.rs:2129-2145 | from every reachable state whose slot has only moved up, the slot keeps moving up however the threads go on after a late abandon, if and only if the abandon does not hit the candidate of a fenced transaction while a member serves or is owed a restart that its next step does not give up |
| `RegistryLate.ALateAbandonMovesTheSlotDown` | agent/src/coordinator.rs:1091-1097 | from every such state, whatever the supervision thread is in the middle of, such an abandon can be followed by a restart that serves above the candidate and an activate that moves the slot down |
| `RestartBudget.RecentIsInsideTheWindow` | agent/src/registry.rs:1880-1886 | what is kept of the restarts is exactly what was made inside the window |
| `RestartBudget.OwingAffords` | agent/src/registry.rs:1867-1915 | the next restart waits for the delay that the number of restarts inside the window gives, and is given up exactly when three were made in it |
| `RestartBudget.RestartsAreSpaced` | agent/src/registry.rs:66-75 | over every run, between promotions and unloads: any four counted restarts span the 300 s window, and each, the first included, was made at least 1, 2 or 4 s after its member came to be owed it, by how many were made inside the window at that time |
| `RestartBudget.GivenUpMembersWait` | agent/src/registry.rs:1752-1765 | after any run and over every run without an activate or an unload, a member that was given up stays so, nothing takes the serving slot, and no process is started but by a transaction |
| `Fences.FencesOpenTheWindow` | agent/src/registry.rs:1427-1434 | a fence answered ok leaves the member fenced by its own transaction, with nothing to reopen |
| `Fences.WindowsStand` | agent/src/registry.rs:367-458 | between a fence answered ok and the end of its transaction, no event but a late reopen of that member sends it an activate or lifts the fence |
| `Fences.FencesHoldExactlyWhen` | agent/src/registry.rs:2129-2145 | from a fence answered ok until its transaction ends, no activate reaches the member over any run of the other threads if and only if, as the fence is answered, no late reopen of it is pending and none is still to reach it as the serving member |
| `Fences.TimelyFencesHold` | agent/src/registry.rs:1427-1472 | when no transaction begins before the one before it has ended, its reopen included, none does |
| `Fences.ALateReopenLiftsTheNextFence` | agent/src/coordinator.rs:1009-1024 | a run in which a second transaction's fence is lifted by the reopen of the first |
| `Fences.NothingOpensARetiredMember` | agent/src/registry.rs:381-405 | over every run no activate of any kind is sent to a member after its retire |
| `Fences.OwedUntilSettled` | agent/src/registry.rs:407-458 | a member fenced by a failed transaction stays owed its activate until, and only until, it is answered ok or unsupported, fenced again, or retired |
| `Fences.OwedIsSentAgain` | agent/src/registry.rs:1581-1605 | once due, and while the member serves, the supervision step starts a thread that sends it again, and it stays owed exactly when the answer is not ok |
| `Fences.NoServingMemberIsLeftClosed` | agent/src/registry.rs:1427-1472 | over every run, once no transaction is in progress and no thread of a failed one is still to reopen, a serving member that is fenced is owed its activate |
| `Retirement.RetiringMembers.Watch` | agent/src/registry.rs:1324-1361 | the loop reaps exactly the members that exited or are past their kill time, asks exactly the overdue ones to stop, and keeps the rest as they are |
| `Retirement.RetiringMembers.StopOldest` | agent/src/registry.rs:1047-1079 | the member asked to stop for its ports is the lowest generation, and only when none is leaving and no ports are free |
| `Retirement.PhasesMoveForward` | agent/src/registry.rs:609-641 | a retiring member's phase only moves forward and its kill time is never changed |
| `Retirement.RetirementsEnd` | agent/src/registry.rs:1315-1361 | with supervision steps at most D apart a member is reaped within CONTROL_BUDGET + 2 * stop_deadline + RETIRE_DRAIN + RETIRE_CLEANUP + 3D of its retire, whatever is answered and whichever port request cuts it short |
| `ContactMonitoring.ContactMonitor.Observe` | agent/src/control_channel.rs:67-94 | the monitor, which keeps no history, is after every observation in the state the whole history gives, and returns an event exactly when that state changes, the one that names the new state |
| `ContactMonitoring.MonitorJudgesTheHistory` | agent/src/control_channel.rs:59-94 | after every history the monitor is failed exactly when some observation came 10 s or more after the last good one before it, else out of contact exactly when the last three or more failed |
| `ContactMonitoring.EventsReplayTheState` | agent/src/control_channel.rs:82-93 | replaying the emitted events gives the monitor's state, every event changes it, and none follows a failure |
| `ContactMonitoring.FailuresLast` | agent/src/control_channel.rs:67-71 | a failed member stays failed and silent |
| `ControlChannel.Transport.ReadFrame` | agent/src/control_channel.rs:444-467 | however the bytes are cut into reads, the frame returned is the first of the stream and the rest is kept, the buffer never exceeds the limit, and a stream that keeps moving yields its frame when its first 65536 bytes hold a newline, and is refused as too large, which nothing else is, when it has that many and they hold none |
| `ControlChannel.Transport.WriteFrame` | agent/src/control_channel.rs:397-414 | a deadline or a stop is reported only when nothing of the request was written, and success only when all of it was |
| `ControlChannel.Transport.AwaitReply` | agent/src/control_channel.rs:415-441 | the reply returned carries the request's own number, and every frame before it was a late reply to an earlier request |
| `ControlChannel.Transport.RoundTrip` | agent/src/control_channel.rs:391-442 | the same for the whole exchange of bytes, with the request written whole before a reply is accepted |
| `ControlChannel.Transport.Exchange` | agent/src/control_channel.rs:355-389 | the frames an exchange consumes are the next frames of the stream; an answer comes only to a request that was written whole; while the channel stays open the worker has received whole requests only; anything but a deadline closes it, and a closed channel sends nothing |
| `ControlChannel.TakenFramesAreTheFirst` | agent/src/control_channel.rs:444-467 | frames taken off a stream one after the other are its first frames, in order |
| `ControlChannel.IdsCarryTheirNumber` | agent/src/control_channel.rs:366-371 | the sequence number is read back from the id of a request, for every 64-bit number |
| `Retry.ObserveWithRetry` | agent/src/main.rs:576-662 | the loop makes the attempts, sleeps and log lines of the recursive reference |
| `Retry.NextDelay` | agent/src/main.rs:638-640 | the sleep before the next attempt is its delay cut to what is left of the budget, and none when that is nothing or the attempts are used up |
| `Retry.EveryEpisodeSettles` | agent/src/main.rs:555-690 | for every number of attempts and budget: at most max(1, attempts) attempts, one retry line per retried failure with a sleep that ends inside the budget, then exactly the one closing line or none, and exhaustion only with the count used up or the budget spent |
| `Retry.SlowHostsGetFewerAttempts` | agent/src/main.rs:628-637 | a host whose attempts take a constant time makes as many as one whose attempts take none if and only if they take less than 2.5 s |
| `Retry.AThreeSecondHostGetsFewer` | agent/src/main.rs:1905-1930 | with attempts of three seconds it makes fewer |
| `FileNames.NamesAreInjective` | agent/src/descriptor_store.rs:41-48 | two documents with the same file name have the same deployment id and generation |
| `FileNames.DocumentsAreTheNames` | agent/src/descriptor_store.rs:50-60 | a name is taken for a document if and only if it is one that a write builds, or that name with the unfinished suffix |
| `Ports.PairsFillTheRange` | agent/src/config.rs:134-141 | a range gives floor(size / 2) pairs, pair i starting 2i ports into it and ending inside it |
| `Ports.LeasesShareNoPort` | agent/src/config.rs:504-526 | two leases of an accepted configuration share no port, none is port 0, and there are at least two |
| `Ports.PortPool.Lease` | agent/src/registry.rs:198-208 | the lease taken is the first that nothing holds, and none is taken exactly when all are held |

## Left out

- Sockets, request projection, status reports, the command line and argument parsing: plumbing that would add easy members.
- Bundle verification, platform and memory admission, staging of bundles: an arbitrary answer that lets a transaction go on or fails it.
- The resident-set records and operations, which this agent refuses.
- JSON encoding and decoding, hashing, process spawning, `/health` and signals: answers of the outside.
- External edits of the state directory, a second agent process on it, and best-effort directory syncs on other platforms.
- The line loop that forwards a worker's standard error, and the polling loop of the control channel around its exchanges and its monitor.
- StateStore.Store.OpenAt: a damaged file is one that neither this agent nor an older one decodes; a file only one of them decodes is a later-version state.
- AgentRuns.EventsKeepTheInvariant: one transaction thread at a time, as the store's begin enforces; what a thread still does after its transaction was cleared from the store is the subject of `Fences` and of `RegistryLate`.
- AgentDocuments.UpdatesKeepDocuments: the sync of a document also makes the state files durable; that the sync of a state file likewise makes documents durable is not used, so a removed or unsynced document counts as at risk for longer than it is.
- StoreRuns.RunsKeepTheStory: the story of one store between two starts, for either kind of crash that ends it; runs that mix kills and power losses over several starts are the subject of `StoreRuns.PlainErrorsAreReadExactlyWhen` and of `AgentRuns`.
- RegistryRuns.EventsKeepInv: the pool gives out any lease that nothing holds, of which the first is one; and the kill of a member taken out of service or owed at a start falls together with the section that follows it.
- Retirement.RetirementsEnd: a section acts at the time it read the clock, so the readings come in the order of the sections; a bound on how long a section waits for the lock is not part of it.
- RestartBudget.RestartsAreSpaced: restarts are counted at the time their supervision step began, as the code records them.
- Fences.OwedIsSentAgain: that the supervision step comes round again is not stated; each time it does, the activate is sent.
- `Retry.Schedule` has the delays in milliseconds; a count of attempts is any number, where the code has 32 bits.
