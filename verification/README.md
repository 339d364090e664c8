# MinerDash control plane, verified

MinerDash keeps the desired state of a fleet of mining rigs in a controller and lets an agent on
each rig converge to it, over a network, files and hardware that can all fail. This project models
the parts that have to be right for that to work, and proves what the design relies on.

The controller

* `StoreState`, `StoreEffects`, `StoreRuns`: the stored document (rigs, flight sheets, wallets,
  pools, miners, profiles, schedules), the configuration a rig is served from it, what each
  operation does to memory, and runs of operations whose saves may fail (a failed save puts the
  last saved document back) and between which the controller may restart. New identifiers, the
  clock and the iteration order of maps are inputs.
* `ControllerStore` (Store.dfy): the store object, whose methods change the state in place. Every
  method leaves the store as the step of `StoreRuns` with the same effect does, for all arguments.
* `StoreIntegrity`: one invariant over every run: keys are identifiers, references resolve,
  fallbacks are acyclic, queues are disciplined, rig names differ.
* `StoreRevision`: the per-rig revision is a sound version of the mining configuration, with the
  two leaks around it stated exactly.
* `StoreLaws`: a schedule runs once a minute; when a stored smart tune is in force.
* `ServedContent`, `StoreDuties`: what every answer to a rig contains, and what every operation is
  accepted for, stores and leaves alone, read off the stored maps reference by reference.
* `Templates`, `Tuning`, `PowerPolicy`, `CommandQueue`: wallet templates, what a list of overclock
  settings means for one register of one GPU, the power ceiling, one rig's command queue.
* `MinerPackages`, `MinerBundle`, `BundlePaths`: publishing a package next to the document, and
  the two readers of a bundle, the controller's verifier and the agent's extractor.
* `Pbkdf2`: password derivation against section 5.2 of RFC 8018.

The two together

* `LeaseProtocol`: the command protocol as a transition system: requests that are lost, late or
  repeated, lost replies, expired leases, failed saves, restarts of either side, a clock that jumps.
* `LeaseComposition`, `ControlLoop`: the store with all its operations really plays the
  controller's part, so the guarantees hold of the store and the agent together.

The agent

* `AgentState`, `AgentRuns`: applying a configuration, the Epic failover check, the watchdog and
  miner commands, all starting and stopping one miner process, and what holds over every run.
* `AgentDuties`: what the agent does do in every run: the fallback takes over and the primary
  returns exactly when they may, an overheated miner goes off and stays off, low hashrate is acted on.
* `RigAgent`, `BinaryUpdate`: the agent object and the miner files, with the two-binary update as
  one transaction. Each method is one step of `AgentState`.
* `OverclockTransition`: incremental overclock changes against a clean application, in place on
  registers whose writes may fail.
* `SmartTune`, `CpuOptimizer`: searches and trials that put back what they disturbed.
* `BoundedBuffer`: the miner's log buffer.

What can fail is numbered: file operations, downloads, GPU commands, governor writes and power
limits each come with an arbitrary function that says which of them fail (`Faults`), so a result
about what is put back names the operations that must not fail.

## What the code does differently from its description

The model follows the code. Where that differs from the documentation or from what one would
expect, a lemma gives the exact condition or a concrete case:

* Renaming a rig changes the mining user without a new revision, exactly when a wallet template
  shows the name (`StoreRevision.RenameLeaksIff`).
* Reading a rig's configuration rewrites stored miner arguments through a shared slice
  (`StoreRevision.ReadInertIff`, `StoreRevision.ReadingChangesAnotherRig`).
* "Fallback flight sheets cannot contain another fallback" is only checked from one side
  (`StoreIntegrity.FlatKeptIff`).
* The bulk command operation can queue a second driver update (`StoreIntegrity.BulkDriverUpdateIff`).
* A reboot that was reported but whose acknowledgement was lost never happens
  (`LeaseProtocol.RebootCanBeMissed`, `LeaseProtocol.MissedForGoodIff`).
* "A lower explicit profile limit remains effective" holds just where no wildcard limit interferes
  (`PowerPolicy.ClampKeepsLowerLimit`, `PowerPolicy.ClampCanRaise`).
* A stored smart tune can be overridden by a wildcard setting that the controller's cap revives,
  or by a second setting for the GPU (`StoreLaws.TunedLimitInForceIff`,
  `StoreLaws.SecondSettingWins`).
* "Previous overclock restored" is not exact, a negative clock blocks a reset, and a profile whose
  miner did not start can leave controls behind: `OverclockTransition.RollbackRestoresIff`,
  `OverclockTransition.TransitionExactIff` and `OverclockTransition.UnrecordedTransitionIff` say
  when, `OverclockTransition.RollbackCanLeaveNewControl`,
  `OverclockTransition.NegativeClockKeepsOldClock` and
  `OverclockTransition.FailedStartLeavesControl` show cases.
* After a failed update the previous primary is started even while the fallback is active
  (`AgentRuns.RestoreFitsIff`).
* Failover and return delays are capped at two seconds although sheets accept up to 600
  (`AgentDuties.FallbackTakesOverIff`, `AgentDuties.PrimaryReturnsIff`), and the minimum-hashrate watchdog does nothing without a
  temperature limit (`AgentRuns.NoLimitNoWatchdog`).
* A miner that was stopped for heat can be started all the same: by a start or restart command that
  adopts nothing, and by a failed update that restarts the previous primary; in no other way
  (`AgentDuties.HeatStepIff`, `AgentDuties.HotMinerHasCause`).
* A refused power limit during synchronisation leaves the new binaries in place: when it is refused
  and what stays are part of `RigAgent.Agent.SyncConfiguration`, ending `PowerRefused`
  (`RigAgent.PowerRefusedKeepsNewBinary`).
* Setting the limits again after a refused overclock uses readings from before the rollback, so the
  ceiling can fail (`OverclockTransition.CeilingCanFail`): on a listed GPU, after a full rollback, if
  and only if it reported a limit within the ceiling and the recorded profile takes it above
  (`NvidiaHost.RefusalLeaves`, in `RigAgent.Agent.PrepareCards`).

## Model

| member | source | states |
|---|---|---|
| StoreRevision.RevisionIsAVersion | internal/server/resources.go:466-510 | in a run without a rename or read that leaks, with failed saves and restarts, two answers to a rig that show one revision agree on both workloads, delays, watchdog, autofan and the profile before the clamp; revisions never fall |
| StoreRevision.RunVersioned | internal/server/resources.go:848-873 | along a quiet run a rig's revision never falls and while it stands still so does its mining configuration |
| StoreRevision.StepAdvances | internal/server/store.go:816-847 | one quiet operation, saved or rolled back, keeps memory and disk coherent and either bumps a rig or leaves what it mines alone |
| StoreRevision.RenameLeaksIff | internal/server/resources.go:416-445 | a rename without other changes keeps the revision, and keeps the mining configuration if and only if no template shows the name |
| StoreRevision.ReadInertIff | internal/server/resources.go:616-639 | serving a rig leaves the store alone if and only if neither its sheet nor, where it is looked at, the fallback rewrites stored arguments that contain the pair |
| StoreRevision.ReadingChangesAnotherRig | internal/server/resources.go:633-635 | a store with nothing wrong in it in which serving one rig changes what another mines under, at the same revision |
| StoreRevision.GoneStaysGone | internal/server/store.go:783-796 | in any run an identifier that was issued and is no rig is never a rig again |
| Templates.RenderShowsWorker | internal/server/resources.go:688-695 | two worker names render alike if and only if the template does not mention the worker |
| Templates.DropWorkerInert | internal/server/resources.go:632-636 | an argument survives the rewriting unchanged if and only if it does not contain the wallet-worker pair |
| Templates.SlotsAreFilled | internal/server/resources.go:688-695 | wherever a marker in braces stands in a template, and wherever the first one in percent signs does, the wallet address or the name appears there, between what the parts before and after render to |
| Templates.LettersStay | internal/server/resources.go:688-695 | a template without markers is shown as it is |
| Templates.PairLosesWorker | internal/server/resources.go:632-636 | every wallet-worker pair in an argument, wherever it stands, becomes the wallet marker, and nothing else changes |
| Templates.FoldsAlikeIff | internal/server/resources.go:416-422 | names, coins and devices compare alike if and only if they differ at most in the case of letters |
| ServedContent.EveryAnswer | internal/server/resources.go:466-510 | in every reachable store an answer holds the stored ceiling, policies, revision and profile under the ceiling, a workload of the assigned sheet and one of its fallback, with the delays of the assigned sheet, each with what the two rows below say |
| ServedContent.ResolvedMines | internal/server/resources.go:581-638 | a workload has the overrides of its sheet or else the URL and password of the stored pool, the stored wallet and binary, the template filled with the address and the sheet's or the rig's name, and the spelled algorithm and the sheet's arguments at the end of the command line |
| ServedContent.SoundArguments | internal/server/resources.go:599-639 | the default arguments of each workload: built for SRBMiner, otherwise the stored ones in their order, with the worker dropped where a template carries it and the login added where none is given |
| ServedContent.ResolvedTellsSrb | internal/server/resources.go:599-616 | behind each flag of SRBMiner stands the algorithm, pool, wallet and password of its device, the stored secondary ones for the second device |
| StoreIntegrity.RunSound | internal/server/store.go:816-847 | keys, references, acyclic fallbacks, queue discipline and distinct names hold in memory and on disk after every run of operations, failed saves and restarts |
| StoreIntegrity.StepSound | internal/server/resources.go:747-836 | every single operation keeps that invariant, whether its save succeeds, fails or never happens |
| StoreIntegrity.NoFallbackCycle | internal/server/resources.go:255-272 | in every reachable store following fallbacks never returns to where it started |
| StoreIntegrity.SinkEdgeAcyclic | internal/server/resources.go:255-272 | pointing a sheet at another sheet without a fallback closes no cycle |
| StoreIntegrity.FlatKeptIff | internal/server/resources.go:269-271 | saving a sheet keeps fallbacks one level deep if and only if it has no fallback or is nobody's fallback |
| StoreIntegrity.EveryRigIsServed | internal/server/resources.go:466-525 | in every reachable store every rig is served if and only if the miner of its sheet can start: sheet and fallback exist |
| StoreIntegrity.NeverTwoTunes | internal/server/store.go:478-483 | in every reachable store a rig has at most one smart tune pending or running, and distinct command identifiers |
| StoreIntegrity.BulkDriverUpdateIff | internal/server/store.go:544-576 | of the rigs with at most one open driver update, the bulk operation leaves so exactly those it does not name and those that had none |
| StoreIntegrity.QuickSound | internal/server/quicksetup.go:63-218 | a quick setup keeps the invariant, also when it is refused after its miner was stored |
| StoreIntegrity.RunAllSound | internal/server/schedules.go:71-105 | running all due schedules keeps the invariant |
| StoreIntegrity.DeleteRigSound | internal/server/store.go:783-814 | deleting a rig keeps the invariant: no schedule names it afterwards |
| StoreLaws.RunsOncePerMinute | internal/server/schedules.go:71-105 | a schedule that took effect in some minute, with the document saved, does not take effect again in it, whatever operations, failed saves and restarts follow |
| StoreLaws.TunedLimitInForceIff | internal/server/store.go:714-781 | for every stored profile, tuned list and controller limit, a tuned limit is in force on a GPU it addresses if and only if the last setting that still addresses the GPU with a limit gives that one |
| StoreLaws.NewSettingInForce | internal/server/store.go:756-781 | a GPU without a setting of its own gets its tuned limit |
| StoreLaws.SecondSettingWins | internal/server/store.go:766-775 | a concrete profile with two settings for one GPU in which the tune changes the one that is not in force |
| ControllerStore.Store.Save | internal/server/store.go:816-847 | on success memory is on disk, on failure memory is the last saved document again |
| ControllerStore.Store.BumpWorkers | internal/server/resources.go:848-873 | in whatever order the rigs are visited, exactly the affected ones get the next revision |
| ControllerStore.Store.SaveWallet | internal/server/resources.go:54-77 | store and answer are those of the wallet step |
| ControllerStore.Store.SavePool | internal/server/resources.go:85-124 | store and answer are those of the pool step, with a bump only for a new URL or password |
| ControllerStore.Store.SaveMiner | internal/server/resources.go:132-202 | store and answer are those of the miner step, with the catalog twin found and digests inherited |
| ControllerStore.Store.SaveSheet | internal/server/resources.go:222-328 | store and answer are those of the sheet step, with every reference, fallback, secondary and range check |
| ControllerStore.Store.SaveProfile | internal/server/resources.go:336-373 | store and answer are those of the profile step |
| ControllerStore.Store.AssignWorker | internal/server/resources.go:375-450 | store and answer are those of the assignment step |
| ControllerStore.Store.SetPowerPolicy | internal/server/resources.go:532-549 | store and answer are those of the policy step; rigs with GPUs are bumped |
| ControllerStore.Store.DeleteResource | internal/server/resources.go:747-836 | store and answer are those of the deletion step, which refuses what is still referred to |
| ControllerStore.Store.QuickSetup | internal/server/quicksetup.go:63-218 | store and answer are those of the quick-setup step, resources reused where they exist |
| ControllerStore.Store.SaveSchedule | internal/server/schedules.go:19-69 | store and answer are those of the schedule step |
| ControllerStore.Store.RunSchedules | internal/server/schedules.go:71-105 | store and answer are those of running every due schedule once |
| ControllerStore.Store.Enroll | internal/server/store.go:222-265 | store and answer are those of the enrolment step; a taken name is refused |
| ControllerStore.Store.DeleteRig | internal/server/store.go:783-814 | store and answer are those of removing the rig from the fleet and from every schedule |
| ControllerStore.Store.Heartbeat | internal/server/store.go:325-343 | store and answer are those of recording telemetry |
| ControllerStore.Store.FinishUpload | internal/server/packages.go:171-195 | store and answer are those of recording an uploaded package, unless the definition changed meanwhile |
| ControllerStore.Store.AddCommand | internal/server/store.go:375-542 | store and answer are those of queueing one command, with every smart-tune and driver check |
| ControllerStore.Store.AddCommands | internal/server/store.go:544-576 | store and answer are those of queueing a command for each chosen rig, or for none |
| ControllerStore.Store.NextCommand | internal/server/store.go:636-664 | the oldest pending or expired command is leased, saved and then handed out |
| ControllerStore.Store.FinishCommand | internal/server/store.go:670-712 | only the first result of a running command is entered; a repeated report is answered with success |
| ControllerStore.Store.Retune | internal/server/store.go:714-781 | the loops over limits and settings compute the tuned and capped profile |
| StoreDuties.SavedWallet | internal/server/resources.go:54-77 | when a wallet is accepted, what is stored, which rigs are told, and that nothing else changes |
| StoreDuties.SavedPool | internal/server/resources.go:85-124 | the same for a pool; rigs are told just of another URL or password |
| StoreDuties.SavedMiner | internal/server/resources.go:132-202 | a catalog entry is stored once, whatever the iteration order; an edited miner keeps its entry and the digests that still belong to its files |
| StoreDuties.SavedSheet | internal/server/resources.go:222-328 | a sheet is accepted if and only if its references exist, its coin is the wallet's, its delays are in range, its fallback has none and fits, and a second coin is complete and for SRBMiner; it is stored with its algorithm spelled |
| StoreDuties.SavedProfile | internal/server/resources.go:336-373 | a profile is accepted if and only if every setting is in range, fixes or offsets a clock and addresses all GPUs or a numbered one |
| StoreDuties.AssignedHasIt | internal/server/resources.go:375-450 | what exists, is in range and not another rig's name is what the rig has after an assignment; its revision rises if and only if sheet, profile or an enabled policy changed |
| StoreDuties.PolicyIsSet | internal/server/resources.go:532-549 | the ceiling is stored and exactly the rigs that reported GPUs have a new revision |
| StoreDuties.DeletedIsGone | internal/server/resources.go:747-836 | an entry is deleted if and only if it exists and no rig, sheet or schedule refers to it, and nothing else goes with it |
| StoreDuties.QuickSheetIsReady | internal/server/quicksetup.go:63-218 | a quick setup leaves a sheet for what was asked, paying to that address at that pool, with resources that were there where they fit; the chosen rigs have it with a new revision and nothing stored is changed |
| StoreDuties.QuickInRun | internal/server/quicksetup.go:63-218 | in every reachable store a quick setup with newly drawn identifiers is such a case |
| StoreDuties.SavedSchedule | internal/server/schedules.go:19-69 | when a schedule is accepted and what is stored; an edited one keeps the minute it last ran |
| StoreDuties.ScheduleTells | internal/server/schedules.go:71-105 | a due schedule queues its command for, or assigns its sheet to, every rig it lists, once for each time it lists it, and notes the minute; one that is not due does nothing |
| StoreDuties.EnrolledIsBlank | internal/server/store.go:222-265 | a new rig has a name no rig has, no sheet, profile, policy or command |
| StoreDuties.DeletedRigIsGone | internal/server/store.go:783-814 | a deleted rig is gone from the fleet and every schedule, and a schedule left without rigs is switched off |
| StoreDuties.TelemetryIsKept | internal/server/store.go:325-343 | a heartbeat changes the telemetry of its rig and nothing else |
| StoreDuties.UploadIsRecorded | internal/server/packages.go:171-195 | an upload records binary and package digest if and only if the definition is still the one seen |
| StoreDuties.CommandIsQueued | internal/server/store.go:375-542 | for each action when the command is accepted; it then stands last in the queue, pending |
| StoreDuties.BulkIsQueued | internal/server/store.go:544-576 | a command for several rigs is queued once for each time a rig is listed, or for none |
| StoreDuties.OldestIsLeased | internal/server/store.go:644-661 | the oldest command that is pending or whose lease ran out is handed out, for 30 s, half an hour for a driver update, an hour for a smart tune |
| StoreDuties.ResultIsEntered | internal/server/store.go:670-712 | a result is entered if and only if its command is running; the command is then complete or failed with error and output, and a tune that lands brings a new revision |
| StoreDuties.UnknownIsRefused | internal/server/store.go:670-676 | a result for a command the rig does not have is refused |
| PowerPolicy.Clamp | internal/server/resources.go:551-579 | the single pass computes the clamped profile |
| PowerPolicy.ClampTwice | internal/agent/overclock.go:80-108 | clamping on the controller and again on the agent equals clamping once |
| PowerPolicy.CeilingHolds | internal/agent/overclock.go:283-293 | after applying a clamped profile every GPU's limit is positive and within the ceiling |
| PowerPolicy.ClampedLimit | internal/agent/overclock.go:80-108 | the limit in force after the clamp, for every GPU and list of settings |
| PowerPolicy.ClampExact | internal/agent/overclock.go:80-108 | where every setting has a limit the result is the smaller of limit and ceiling, or the ceiling where nothing covered the GPU |
| PowerPolicy.ClampKeepsLowerLimit | internal/server/resources.go:565-573 | the clamp keeps the smaller of limit and ceiling if and only if the last setting addressing the GPU has a limit of its own, or the ceiling was no higher anyway |
| PowerPolicy.ClampCanRaise | internal/server/resources.go:569-571 | a concrete profile whose limit the clamp raises |
| PowerPolicy.ClampLeavesControls | internal/server/resources.go:551-579 | the clamp leaves every clock and offset as the profile has it, and an owned profile its identity |
| Tuning.NumeralSelects | internal/agent/overclock.go:388-394 | the numeral of a number, with zeros or a plus sign before it too, addresses the GPU of that number and no other, and nobody beyond the range of a 64-bit integer |
| Tuning.SelectorIsNumeral | internal/agent/overclock.go:388-394 | a selector that is no wildcard addresses a GPU only if it is a signed numeral of its number |
| Tuning.OneSetting | internal/agent/overclock.go:259-312 | what one setting does to each of the five controls of a GPU |
| OverclockTransition.ActsIff | internal/agent/overclock.go:169-226 | applying or resetting a setting sends a command if and only if it has a control to set or to reset |
| LeaseProtocol.StepKeeps | internal/agent/client.go:884-936 | every possible move of controller, network or agent keeps the protocol invariant |
| LeaseProtocol.SystemActsOnce | internal/agent/client.go:909-915 | in every run a reboot or shutdown command is carried out at most once |
| LeaseProtocol.RecordedBeforeActing | internal/agent/client.go:909-915 | it is carried out only when the controller has it as complete |
| LeaseProtocol.OrdinaryOncePerLife | internal/agent/client.go:884-928 | an ordinary command is carried out at most once in each life of the agent |
| LeaseProtocol.OnceWithoutRestart | internal/agent/client.go:916-928 | without a restart nothing is carried out twice, and what is recorded is what the one execution produced |
| LeaseProtocol.RecordedWasProduced | internal/server/store.go:677-708 | even across restarts what is recorded is what some execution produced |
| LeaseProtocol.EndedForGood | internal/server/store.go:679-684 | a command that ended never changes again |
| LeaseProtocol.LeaseRespected | internal/server/store.go:644-661 | between two handouts of a command lie more than 30 s, an hour for a smart tune, half an hour for a driver update |
| LeaseProtocol.LeasedAgainIff | internal/server/store.go:644-661 | a command that has not ended may be handed out again if and only if its last lease ran out |
| LeaseProtocol.MissedForGoodIff | internal/agent/client.go:909-915 | a system action recorded but not carried out can still be if and only if the agent holds it with its report acknowledged, or still to be acknowledged by a controller that knows the rig |
| LeaseProtocol.RebootCanBeMissed | internal/agent/client.go:909-912 | a run in which that happens |
| LeaseComposition.OtherOperationMoves | internal/server/store.go:535-541 | any other store operation is a stutter of a rig's queue, a growth of it, or the end of the rig |
| LeaseComposition.NextMoves | internal/server/store.go:636-664 | the store hands out exactly what the protocol allows |
| LeaseComposition.FinishMoves | internal/server/store.go:670-712 | the store enters a report, and answers it with success, exactly as the protocol says |
| LeaseComposition.RunQueuesSaved | internal/server/store.go:836-847 | in every run the queues in memory are those on disk |
| ControlLoop.RunMoves | internal/agent/client.go:884-936 | every run of store, network and agent together is a run of the protocol |
| ControlLoop.NothingTwice | internal/agent/client.go:884-928 | with the whole store in the loop, a reboot or shutdown happens at most once and an ordinary command at most once per life of the agent |
| ControlLoop.OnDiskBeforeActing | internal/server/store.go:816-834 | when the agent is about to reboot or shut down, the document on disk says the command is complete |
| ControlLoop.HandoutsApart | internal/server/store.go:644-661 | with the whole store in the loop, handouts of one command are 30 s, half an hour or an hour apart |
| ControlLoop.HandedAgainIff | internal/server/store.go:644-661 | with the whole store in the loop, a saved poll hands a command out again, before which none is due, if and only if its last lease ran out |
| ControlLoop.EnrolledIsJustEnrolled | internal/server/store.go:255-260 | a rig enrolled in any reachable store is a starting point for these runs |
| AgentRuns.RunningIsReported | internal/agent/epic_failover.go:122-142 | in every run in which no synchronisation restarts the previous primary over an active fallback, a running miner is the workload that ought to run, and its coin and algorithm are those reported |
| AgentRuns.RestoreFitsIff | internal/agent/client.go:388-400 | for every synchronisation and host, a running miner stays in its place if and only if the previous primary is not restarted over another workload active as the fallback |
| AgentRuns.FailoverIsPatient | internal/agent/epic_failover.go:44-120 | fallback starts and returns only after an unbroken span of agreeing checks as long as the wait |
| AgentRuns.OneTimer | internal/agent/epic_failover.go:62-90 | the two failover timers are never both set |
| AgentRuns.StartsAndReturnsAlternate | internal/agent/epic_failover.go:44-120 | between two starts lies a return or a reset, between two returns a start |
| AgentRuns.FailedProbeIsNoReason | internal/agent/epic_failover.go:160-170 | a failed probe starts the fallback only after a minute and never while the primary hashes |
| AgentRuns.WatchdogActionsSpaced | internal/agent/client.go:851-866 | restarts and reboots for low hashrate are at least the delay apart |
| AgentRuns.RebootIsLastResort | internal/agent/client.go:858-865 | a reboot comes no sooner than the asked number of delays after a low sample, without relief in between |
| AgentRuns.NoLimitNoWatchdog | internal/agent/client.go:812-816 | the watchdog judges nothing unless enabled with a temperature limit and a minimum hashrate |
| AgentDuties.FallbackTakesOverIff | internal/agent/epic_failover.go:92-119 | in every run a check while the primary is away makes the fallback active if and only if for two seconds, or the one the sheet says, or a minute after a failed probe, no check found the primary back, the miner is not stopped for heat and the fallback starts |
| AgentDuties.PrimaryReturnsIff | internal/agent/epic_failover.go:62-91 | in every run a check while the primary is back makes it active again if and only if no check for two seconds, or the one the sheet says, found it away, the miner is not stopped for heat and the primary starts |
| AgentDuties.CheckLeavesMiner | internal/agent/epic_failover.go:44-120 | a check starts and stops nothing while the miner is stopped for heat, and changes no places |
| AgentDuties.LowHashrateIsActedOn | internal/agent/client.go:839-866 | in every run a low sample is acted on if and only if low samples lasted the restart delay: by a reboot if and only if it is the asked number of actions without relief, otherwise by a start of what ought to run |
| AgentDuties.HeatStepIff | internal/agent/client.go:388-417 | a miner comes to run while it is stopped for heat if and only if a failed update restarts the previous primary or a start command adopts nothing |
| AgentDuties.HotMinerHasCause | internal/agent/client.go:942-949 | in every run, if a miner runs while it is stopped for heat, one of these two came since that stop |
| AgentDuties.TooHotTurnsOff | internal/agent/client.go:817-830 | a sample at the limit stops the miner, and none runs until a cooler sample or a new configuration, whatever else follows but those two |
| AgentDuties.StoppedUntilRelieved | internal/agent/client.go:832-837 | a stop for heat ends if and only if a configuration is adopted, or a sample is below the limit and the start succeeds |
| AgentDuties.CoolSampleStarts | internal/agent/client.go:832-837 | a sample below the limit starts what ought to run |
| AgentDuties.AdoptedWhole | internal/agent/client.go:381-417 | a synchronisation adopts configuration and revision, runs the new primary and forgets failover and heat stop, if and only if all before the start and the start succeed; otherwise it keeps all four |
| AgentDuties.RefusedStops | internal/agent/client.go:354-410 | for each way a synchronisation ends without adopting, what becomes of the miner |
| AgentDuties.StartSucceedsIff | internal/agent/client.go:427-449 | when a start succeeds, and what runs after a start that did and one that did not |
| RigAgent.Agent.StartWorkload | internal/agent/client.go:427-449 | at most one miner runs: the old one is stopped first, and a failed start leaves none |
| RigAgent.Agent.StartActiveWorkload | internal/agent/epic_failover.go:122-127 | the workload that ought to run is the one started |
| RigAgent.Agent.ReconcileFailover | internal/agent/epic_failover.go:44-120 | the fields updated step by step end as the failover step says |
| RigAgent.Agent.EnforceWatchdog | internal/agent/client.go:812-867 | the fields updated step by step end as the watchdog step says, and a reboot is asked for just then |
| RigAgent.Agent.PrepareBinaries | internal/agent/client.go:336-350 | both binaries are made ready, or the first is undone: it is back where the operations undoing it did not fail, and both are as before where none failed; without failures and with both packages to be had it succeeds |
| RigAgent.Agent.SyncConfiguration | internal/agent/client.go:314-417 | one transaction over process, files and GPUs, with the condition for each ending: adoption means verified binaries and, from hardware holding the recorded profile, exactly the new one; otherwise configuration and revision stay, and where no file operation failed both paths hold their earlier contents and a replaced miner gives way to the previous one, but for a refused power limit, after which a path keeps its content just where it was right before; with nothing failing the configuration is adopted and no backup remains |
| RigAgent.Agent.PrepareCards | internal/agent/client.go:351-380 | limits, step and limits again each succeed if and only if the GPUs allow it and none of its commands fails; success leaves hardware that held the recorded profile holding exactly the new one, and after a refused step it is stated when a listed limit exceeds the ceiling |
| RigAgent.PowerRefusedKeepsNewBinary | internal/agent/client.go:354-361 | a concrete GPU for which a ceiling is refused on any hardware, and files that keep the new binary then |
| OverclockTransition.RefusedLimit | internal/agent/client.go:364-380 | after a refused step a limit that was within the ceiling is above it only if the recorded profile sets it there, and after a full rollback exactly then |
| OverclockTransition.HeldNeverExceeds | internal/agent/client.go:364-380 | on a GPU that held the recorded profile and reported its limit truly the ceiling holds after a refused step |
| OverclockTransition.CeilingCanFail | internal/agent/client.go:364-380 | a concrete GPU at the ceiling that a rollback takes above it and the second enforcement leaves there |
| RigAgent.Agent.ExecuteStart | internal/agent/client.go:942-949 | the start command synchronises and then starts what ought to run |
| BinaryUpdate.FileSystem.Replace | internal/agent/client.go:746-770 | it succeeds if and only if no operation fails; the new content is then in place with the old one in the backup, and otherwise the old one is at the path unless putting it back failed too; at every step it is at one of the two |
| BinaryUpdate.FileSystem.Rollback | internal/agent/client.go:772-784 | it succeeds if and only if no operation fails, and then the old content is back; otherwise it is still in the backup |
| BinaryUpdate.FileSystem.Commit | internal/agent/client.go:786-794 | unless its removal fails the backup is gone, and the new content stays |
| BinaryUpdate.Ensure | internal/agent/client.go:451-501 | success means the asked-for digest is at the path; it succeeds where nothing fails and the package can be had; a binary that is there is left alone |
| MinerPackages.SaveMinerBundle | internal/server/packages.go:131-205 | archive and document change together: both new on success; after a failed save the old document, and the old archive unless the last operation, which puts it back, failed as well |
| MinerBundle.Verify | internal/server/packages.go:207-261 | the loop reports the digest of the last entry under the entry point, and accepts exactly the archives within all limits |
| MinerBundle.Extract | internal/agent/client.go:587-649 | extraction succeeds if and only if the archive is acceptable and no name is both file and directory |
| MinerBundle.ExtractedAsVerified | internal/agent/client.go:570-579 | what was verified is extracted with the verified digest at the entry point, and conversely |
| MinerBundle.ExtractedInside | internal/agent/client.go:615-621 | every extracted file has a path of plain names |
| MinerBundle.ClashIsAccepted | internal/server/packages.go:236-241 | an archive the controller accepts although the agent cannot extract it |
| MinerBundle.NameAcceptedIff | internal/server/packages.go:228-235 | an entry name is accepted if and only if it has no backslash and only plain pieces |
| MinerBundle.AcceptedIff | internal/server/packages.go:225-243 | accepted are exactly the archives of files and directories with plain names, at most 10000 files of at most 250 MiB and 1 GiB in all |
| MinerBundle.ArchiveNameIs | internal/server/packages.go:228-231 | a directory may have a slash behind its name, a file may not |
| MinerBundle.LastContentIs | internal/server/packages.go:244-252 | what stands under a name is the last file of that name |
| BundlePaths.ValidBundlePathIff | internal/server/packages.go:263-269 | the clean-up check accepts exactly the relative paths of plain names |
| OverclockTransition.NvidiaHost.Transition | internal/agent/overclock.go:34-52 | each ending comes exactly when it should: reset, apply and re-apply are all tried, and succeed where the hardware allows them and no command fails; on hardware holding the previous profile a success leaves exactly the next, and every other ending is stated register by register |
| OverclockTransition.TransitionExact | internal/agent/overclock.go:110-150 | reset and apply equal a clean application, for any order, duplicates and mix of selectors |
| OverclockTransition.TransitionExactIff | internal/agent/overclock.go:110-150 | without the sign condition a register ends as a clean application leaves it if and only if the next profile sets it, the previous one gives it up, or it held its default; giving up is told from the two profiles |
| OverclockTransition.ResetIffGivenUp | internal/agent/overclock.go:110-150 | a register is reset if and only if some previous setting has it and the first next setting with the same selector, or without one a wildcard limit, leaves it at 0 |
| OverclockTransition.DroppedControlIsReset | internal/agent/overclock.go:110-150 | a control only the previous profile sets is in the removed list |
| OverclockTransition.RemovedSettings | internal/agent/overclock.go:110-150 | the nested loops compute the removed settings |
| OverclockTransition.NvidiaHost.ApplySettings | internal/agent/overclock.go:259-312 | success, exactly where every GPU is there and no command fails, leaves each register at the last covering setting; failure between two prefixes |
| OverclockTransition.NvidiaHost.ResetSettings | internal/agent/overclock.go:169-226 | exactly the registers the list names go to their defaults, unless a GPU is missing or a command fails |
| OverclockTransition.NvidiaHost.EnforceLimit | internal/agent/overclock.go:54-78 | a GPU reporting no limit or one above the ceiling is set to it, unless it cannot be limited or a command fails; nothing else changes, and where the readings within the ceiling are true every listed GPU ends within it |
| OverclockTransition.NvidiaHost.HoldsIs | internal/agent/overclock.go:169-226 | holding a profile means that every register is stock but for what the settings of an NVIDIA profile say, later ones overriding |
| OverclockTransition.RollbackRestoresIff | internal/agent/overclock.go:45-50 | re-applying the previous profile restores a register wherever the failure came if and only if that profile sets it, or the next one sets it to nothing but its default |
| OverclockTransition.RestoredIff | internal/agent/overclock.go:45-50 | the same for a failure after a given number of settings |
| OverclockTransition.RollbackCanLeaveNewControl | internal/agent/overclock.go:45-50 | a concrete rollback that does not restore |
| OverclockTransition.NegativeClockKeepsOldClock | internal/agent/overclock.go:123-128 | a concrete negative clock that blocks the reset |
| OverclockTransition.RepeatedTransitionIsExact | internal/agent/client.go:365-387 | repeating a transition whose miner did not start is harmless |
| OverclockTransition.UnrecordedTransitionIff | internal/agent/client.go:365-387 | moving to a third profile after that is exact if and only if it sets the register, the recorded profile gives it up, or it holds its default |
| OverclockTransition.FailedStartLeavesControl | internal/agent/client.go:381-387 | a concrete offset that outlives its profile that way |
| SmartTune.RunSmartTune | internal/agent/autotune.go:123-202 | every GPU ends at a limit justified by measurements made with the tested limits in force, or the last commands are those that put every touched GPU at its original limit within the controller's, and each that does not fail does; it gives up only when something failed or was cancelled, and no tried limit leaves the range |
| SmartTune.ChoiceIsWorthwhile | internal/agent/autotune.go:166-196 | a justified choice costs at most 3 % hashrate and, if no faster, is no less efficient |
| SmartTune.ScoreMeaning | internal/agent/autotune.go:211-218 | scoring at least as well as the baseline means at least 97 % of its hashrate, and no less efficiency if no faster |
| SmartTune.ScoreWeighs | internal/agent/autotune.go:211-218 | of two contenders one scores higher if and only if three times its relative gain in hashrate outweighs twice its relative loss in efficiency |
| SmartTune.ChoiceOutweighs | internal/agent/autotune.go:166-196 | no other test that keeps 97 % of the hashrate has the better of that balance against the chosen one, and none at a higher limit an equal one |
| SmartTune.LimitsTried | internal/agent/autotune.go:166-196 | a chosen limit was compared with exactly the first limit and, where the GPU goes that low, 5 W and 10 W below it |
| SmartTune.LimitsAreHighest | internal/agent/autotune.go:136-142 | the first limit is the highest that GPU, request and controller allow, and the limit put back is the one before unless the controller forbids it |
| SmartTune.TuneOne | internal/agent/autotune.go:166-196 | the candidates are the whole range in steps of 5 W, each measured with its limit in force, and the first best one is set |
| SmartTune.Measure | internal/agent/autotune.go:259-302 | the mean of three reports in a row, if and only if all three have a hashrate and respect the power and temperature limits |
| SmartTune.Restore | internal/agent/autotune.go:341-348 | one command for each listed GPU, and each that does not fail puts the old limit back |
| CpuOptimizer.Optimizer.Update | internal/agent/cpu_optimization.go:94-133 | every governor file holds what it deserves or "performance"; outside a trial exactly what it deserves, but for files whose own write back failed: where no such write ever failed, all do |
| CpuOptimizer.Optimizer.Rollback | internal/agent/cpu_optimization.go:211-222 | every governor is written back once; a file is stuck only if its own write failed |
| CpuOptimizer.Optimizer.Advance | internal/agent/cpu_optimization.go:143-198 | samples, trials and verdicts are those of the decision function on the governors read; a trial opens if and only if every one of them could be set |
| CpuOptimizer.ChangesAreEarned | internal/agent/cpu_optimization.go:143-198 | in every run a trial is judged on three stable samples of one workload since it was opened, and its change kept if and only if their mean is at least 1 % above a stable baseline |
| CpuOptimizer.TrialMovesIff | internal/agent/cpu_optimization.go:143-198 | a trial opens if and only if the baseline is stable, a governor could gain and all could be written, and is judged if and only if its samples are stable |
| CpuOptimizer.StableMeans | internal/agent/cpu_optimization.go:291-305 | stable means three samples or more, none more than 3 % away from a positive mean |
| CpuOptimizer.IsStable | internal/agent/cpu_optimization.go:291-305 | the loop decides stability around the mean |
| CpuOptimizer.NoGainNoChange | internal/agent/cpu_optimization.go:313 | a trial under a constant hashrate is rejected |
| Pbkdf2.DerivePassword | internal/server/users.go:176-197 | the nested loops with in-place exclusive or compute the derived key of section 5.2 of RFC 8018 |
| Pbkdf2.Int4Spells | internal/server/users.go:180-185 | the block number enters as four octets, the most significant first |
| Pbkdf2.DerivedOctet | internal/server/users.go:182-195 | every octet is the exclusive or of its column over all rounds of its block |
| Pbkdf2.ShorterIsPrefix | internal/server/users.go:176-197 | a shorter key is the beginning of a longer one |
| BoundedBuffer.Buffer.Write | internal/agent/process.go:647-664 | the buffer holds exactly the last bytes of everything written since the last reset |
| BoundedBuffer.LastOfAppended | internal/agent/process.go:651-661 | the end of an extended text needs only the end of the text |

## Left out

- HTTP, TLS, JSON, sessions, the dashboard, discovery, price feeds, network scan, USB and Windows support, updater: plumbing or third-party input.
- Checks on names, URLs, catalog entries and driver packages arrive as verdicts, lists of rigs without duplicates, and texts as already trimmed and upper-cased; case folding is that of `Templates.Fold`.
- Activities, history, alerts, users, enrolment grants, tags and power estimates are not stored in the model; they are not referred to by anything modelled.
- ControllerStore.Store.AddCommand: does not model the smart-tune request, shell text and driver selection carried along on the command; their checks are verdicts.
- ControllerStore.Store.QuickSetup: the catalog checks before and after the miner lookup are verdicts, with whether the miner is a catalog entry.
- Serving a configuration is modelled on values (`StoreState.Serve`, `StoreState.AfterServing`), including what it writes through a shared slice and what the reply then shows; aliasing between argument lists that share spare capacity is not.
- Revisions and attempts are unbounded; their wrap-around is out of reach in practice.
- LeaseProtocol.SystemActsOnce: assumes one agent process per identity.
- AMD cards and fans: an AMD profile is applied only when it is empty, and fans are not per-GPU state.
- OverclockTransition.NvidiaHost.Transition: the two clock offsets are two writes, where one command may set both.
- RigAgent.Agent.SyncConfiguration: GPUs are read once, before the binaries are prepared; whether the operating system can tell that a path is there is not in doubt; the power limits set again at the start of the miner are an answer of the host; the table of launch profiles, which is not put back after a failure, is not modelled.
- BinaryUpdate.FileSystem.Download: the archive and the staged directory of a bundle are one staged content; extraction is in `MinerBundle`.
- MinerBundle.Extract: models a disk that does not fail and files that can be overwritten by a later duplicate.
- MinerPackages.SaveMinerBundle: whether the package metadata is complete and the uploaded archive has the approved digests is settled before.
- SmartTune.RunSmartTune: heartbeats that run beside it, the mode of the request, the final sort of the selected settings by selector text and the progress reports are not modelled.
- CpuOptimizer.Optimizer.Update: the setup service that may change governors itself, huge pages, MSR and NUMA diagnostics are not modelled.
- Floating-point rounding: hashrates, power and temperatures are reals.
- Pbkdf2.DerivePassword: the standard's refusal of keys longer than 2^32 - 1 blocks is not in the code; block numbers wrap there, in the code and in the model.
