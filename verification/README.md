# Simlock: verified models of its coordinators

Simlock leases simulators and emulators to agents. Its hardest logic is in small coordinators whose
asynchronous steps interleave. Each is modelled here as a step system: a state, one atomic step for
what the source runs between two awaits, and `Run`, the state after any sequence of events. An event
that cannot happen in a state changes nothing, so a lemma about `Run(events)` for every `events` is
about every interleaving. What the surroundings answer (driver, registry, lifecycle, file system,
clock) is part of the event, so every success and failure is covered.

Beside each step system stands the source's own imperative form: classes whose methods change fields,
loops with invariants. Between two steps such an object is `Valid`: it satisfies what is proved of
every reachable state. Its contracts equate the new state with the step of the model and state what a
caller gets from it.

What a step answers is stated apart from how it is computed. For every run and every next event, an
outcome comes if and only if one of its causes does: how an install call ends (`CallEndsExactly`), where an
install, a provision, a removal and a baseline task go (`InstallMovesExactly`, `ProvisionMovesExactly`,
`RemovalMovesExactly`, `TaskGoesOnExactly`), what becomes of an alert (`FateChangesExactly`), of a device
record and of a baseline version (`RecordsChangeExactly`, `VersionsChangeExactly`), what a join is answered
(`JoinAnsweredExactly`) and why a root is refused (`VerdictsExactly`).

A timer is part of the state: armed, due at a time, consumed when it fires and cancelled when its call
or try is settled. Time passes only up to the first armed timer, and it is proved that time is never
stuck: from every reachable state the timers alone bring the clock to any later time.

| files | what they model |
|---|---|
| `InstallQueue`, `InstallQueueRuns`, `InstallCallRuns`, `InstallTime`, `InstallEffects`, `InstallEnded`, `InstallProgress`, `InstallMoves`, `InstallOutcomes`, `InstallChecks`, `ComponentInstaller` | install queues per platform: joins, timers, removals that take the turn, close |
| `Worker`, `WorkerRuns`, `ProvisionProgress`, `ProvisionOutcomes`, `DeviceProvisioner` | provisions, removals and the decision gate in one system: claim, mark, commit |
| `BaselineRuns`, `BaselineDrops`, `BaselineOutcomes`, `BaselineService` | versioned baselines, holds, the drop of replaced versions |
| `Gate`, `DeviceClaims` | the promise-chain lock and the device claims |
| `Alerts`, `AlertRuns`, `AlertTime`, `AlertOutcomes`, `DestinationQueue` | the alert queue |
| `FollowLog`, `FollowLogRuns`, `FollowLogOvertaken`, `LogFollower` | the log follower against an appending and rotating writer |
| `DeviceRoot`, `OwnedRoot`, `RootReasons` | publication of a device root raced by several daemons with crashes |
| `EventBus` | the ring of retained events and replay |
| `ScreenFrames` | the streaming deframer |
| `OsRange`, `OsRangeText`, `OsGrammar`, `VersionOrder` | OS ranges and version precedence |
| `Csv` | the ledger printer, and a reader of section 2 of RFC 4180 |
| `Tokens`, `TokenAnswers`, `TokenStore` | worker tokens and racing uplink joins |
| `Common`, `Text` | options, sequences and strings |

## Where the code and its documentation differ

The model follows the code. In each case a lemma shows the failing family and says exactly when the
promise holds.

- `close()` is documented to reject every open call (`src/core/component-installer.ts:158`, `:532-535`).
  It leaves a call open if and only if its install had left the queue: `CloseSettlesExactlyTheQueued`. An
  ended install is documented never to have a call (`:273-277`). That holds of one still in its queue; an
  ended install has a call if and only if it has left and a call that joined it after its success was
  settled (`:705`) and before it left (`:619-624`) is still open: `EndedHasACallExactlyWhenLate`. Such a
  call outlives the install and a later close, and ends by its timer: `LateCallOutlivesInstallAndClose`,
  `GoneInstallsHoldOnlyLateCalls`.
- A replaced version is documented to stay while a device record has it (`src/core/baselines.ts:187`).
  The device list is read once per pass (`:449`), so a copy that gets its record while an earlier row's
  source is being destroyed is not seen. `DroppedUnderADeviceExactly` gives the condition, which can be
  told when the list is read; `LiveVersionCanBeDropped` is a run.
- A version that is not dotted integers is documented to satisfy no range
  (`src/contract/os-range.ts:110-111`). It satisfies none if and only if its first segment is not a
  number: `WithinNoneExactly`, `SatisfiesNoRangeExactly`.
- `isNewerVersion` is an order exactly when the first three core segments are numbers
  (`StrictWeakOrder`, `NoOrderWithoutNumericCore`), and compares versions cut at the first pre-release
  hyphen (`NewerIsPrecedenceOfCut`, `HyphenHidesPrecedence`).
- A follower overtaken by two rotations goes on at the newest file. What it has written is still the log
  if and only if nothing was skipped: `OvertakenLosesExactlyTheSkipped`, `OvertakenInPoll`; a run that
  loses a line is `OvertakenLosesText`.
- A token that has been revoked can still be accepted once. A join not yet answered wins for a token that
  is gone if and only if its pin was taken before the token went, or the record it read was pinned to the
  id it claims: `RevokedSinceRead`. `RevokedTokenIsAccepted` and `RevokedAfterPinIsAccepted` are runs of
  both kinds for every token and id.
- `provision` looks its driver up before the first `try` (`src/core/device-provisioner.ts:115`), so a
  platform without a driver leaves the reservation held. A call that is over has released its reservation
  exactly once if and only if the platform has a driver: `ReservationReleasedExactlyWithADriver`,
  `NoDriverKeepsTheReservation`.

## Model

| member | source | states |
|---|---|---|
| `InstallCallRuns.OneAtATimeInArrivalOrder` | src/core/component-installer.ts:338-369 | In every run, per platform at most one of an install run and a removal is active; the active install is the queue head even after it timed out; an install starts only after all made before it on its platform have left; a free platform never sits on a waiting queue |
| `InstallCallRuns.CallsSettledOnceInTime` | src/core/component-installer.ts:245-258 | In every run each admitted call is settled at most once, is in its install's list and has its timer armed for `timeoutMs` after its arrival exactly while unsettled, and is settled no later than that |
| `InstallTime.FiredTimerSettles` | src/core/component-installer.ts:731-773 | In every run a timer that fires settles its call with a timeout, exactly at its deadline, cancels it and opens no call |
| `InstallTime.TimeReaches` | src/core/component-installer.ts:254-258 | From every reachable state timers alone bring the clock to any later time |
| `InstallTime.EveryCallIsSettled` | src/core/component-installer.ts:206-209 | From every reachable state a run of timers alone settles a given call, by its deadline |
| `InstallCallRuns.JoinsTheLiveInstall` | src/core/component-installer.ts:558-560 | In every run a call joins the live install of its component, never an ended one, and a new install is made only when every earlier one of the component has ended |
| `InstallCallRuns.CloseSettlesExactlyTheQueued` | src/core/component-installer.ts:536-547 | In every run close leaves an open call open if and only if its install had left the queue |
| `InstallEnded.EndedHasACallExactlyWhenLate` | src/core/component-installer.ts:271-277 | In every run an ended install still in its queue has no call; an ended install has a call if and only if it has left its queue and a call that joined it after its success was settled is still open |
| `InstallEnded.RunEndedIdle` | src/core/component-installer.ts:738-743 | In every run no install that ended in its queue has a call |
| `InstallCallRuns.GoneInstallsHoldOnlyLateCalls` | src/core/component-installer.ts:590-626 | In every run a call that joined after the success of its install was settled ends only by its timer or a close, and no other call of an install that has gone is open |
| `InstallProgress.EveryInstallCanFinish` | src/core/component-installer.ts:589-626 | From every reachable state answers and given turns alone bring every install to its end and drain every queue |
| `InstallProgress.InstallNeverStuck` | src/core/component-installer.ts:590-626 | In every reachable state an install under way can get an answer that brings it nearer to its end or has it leave its queue |
| `InstallOutcomes.CallEndsExactly` | src/core/component-installer.ts:590-773 | In every run, for every next event and open call: it ends `Installed` if and only if its own install's record is written, already installed if and only if the component is found or the driver says so, not needed or with an error, a timeout or close if and only if a cause of that comes; otherwise it stays open, as when the driver fails |
| `InstallOutcomes.FailedInstallServesNoCall` | src/core/component-installer.ts:617-618 | In every run a call open when its driver fails, or when its record cannot be written, is not settled by that, and whatever comes after is never settled as installed: it ends by an error, its timer or close |
| `InstallOutcomes.EndedByACause` | src/core/component-installer.ts:748-773 | In every run a call that has ended was ended by one event of the run, a cause of the outcome it has |
| `InstallOutcomes.InstalledMeansRecorded` | src/core/component-installer.ts:595-705 | In every run a call that ended `Installed` was ended by the writing of its install's record, after the component was not found, space was reserved and the driver installed it |
| `InstallMoves.InstallMovesExactly` | src/core/component-installer.ts:590-706 | In every run and for every next event an install comes to each point past its checks if and only if an answer that leads there comes |
| `InstallMoves.StagesBehind` | src/core/component-installer.ts:595-706 | In every run where an install is tells what was answered: the driver runs only after the component was not found and space was reserved, the record is written only after the driver installed |
| `InstallChecks.StillNeededCalledOnce` | src/core/component-installer.ts:628-642 | In every run a call's `stillNeeded` is called only if it was not before, is awaited from that step on and by no other step, and its answer ends the wait |
| `InstallChecks.ChecksGo` | src/core/component-installer.ts:629-642 | The checks call what was not called, never twice, and are over only when every call on the list is checked |
| `InstallCallRuns.LateCallOutlivesInstallAndClose` | src/core/component-installer.ts:705 | From every state between settling a success and leaving, a call that arrives outlives the install and a later close |
| `InstallCallRuns.SuccessIsReached` | src/core/component-installer.ts:644-706 | That state is reached by a run |
| `InstallCallRuns.SettleAllEffect` | src/core/component-installer.ts:748-758 | Draining an install settles each of its calls exactly once and no other, and empties its list |
| `InstallCallRuns.RunOk` | src/core/component-installer.ts:214-269 | The queue, turn and call invariants hold in every reachable state |
| `InstallQueueRuns.QueueStep` | src/core/component-installer.ts:577-626 | Every step keeps queues in arrival order with only the head started, no install beside a removal, and one joinable install per component |
| `ComponentInstaller.Installer.RequestInstall` | src/core/component-installer.ts:234-269 | `install` refuses when closed; otherwise it takes the arrival step, and the new call is open on an install of its component with its timer armed for the whole budget |
| `ComponentInstaller.Installer.FindJoinable` | src/core/component-installer.ts:558-560 | The search loop finds the first install of the component that has not ended |
| `ComponentInstaller.Installer.SettleCall` | src/core/component-installer.ts:761-773 | Settling takes the call off its list and fires it, or does nothing if it has left |
| `ComponentInstaller.Installer.SettleEvery` | src/core/component-installer.ts:748-758 | The draining loop empties the list, settles each call on it once with the outcome, and touches nothing else |
| `ComponentInstaller.Installer.CheckStillNeeded` | src/core/component-installer.ts:629-642 | The check loop marks calls in order and stops at the first that has a check to await |
| `ComponentInstaller.Installer.PumpQueue` | src/core/component-installer.ts:578-587 | Starts the head when it waits and no removal holds the turn |
| `ComponentInstaller.Installer.LeaveQueue` | src/core/component-installer.ts:619-625 | The `finally` of a run: ended, off the queue, next one pumped |
| `ComponentInstaller.Installer.ExpireCall` | src/core/component-installer.ts:731-746 | The fired timer is consumed and its call settled at its deadline; a running install ends for all its calls, otherwise the call leaves alone |
| `ComponentInstaller.Installer.Advance` | src/core/component-installer.ts:254-258 | Time passes, up to the first armed timer |
| `ComponentInstaller.Installer.CloseAll` | src/core/component-installer.ts:536-547 | The nested loops take exactly the close step; the calls left open are exactly those of installs that had left their queue |
| `ComponentInstaller.Installer.CheckAnswered` | src/core/component-installer.ts:636-641 | The call asked stays open when still needed and otherwise ends as not needed, or with the error of a check that threw; every other call stays as it is |
| `ComponentInstaller.Installer.ChecksOver` | src/core/component-installer.ts:592-595 | With no call left the install is gone, otherwise it looks for the component |
| `ComponentInstaller.Installer.FindAnswered` | src/core/component-installer.ts:595-610 | A component found settles each call once as already installed, a failure rejects each; otherwise space is reserved while calls are left |
| `ComponentInstaller.Installer.ReserveAnswered` | src/core/component-installer.ts:605-613 | A refused reservation rejects each call once; otherwise the driver runs while calls are left |
| `ComponentInstaller.Installer.DriverAnswered` | src/core/component-installer.ts:658-706 | A component already there settles each call once and the install has succeeded; a failed driver settles no call and the install has failed; an installed one settles no call and the record is written next |
| `ComponentInstaller.Installer.CommitAnswered` | src/core/component-installer.ts:676-705 | A written record settles each call once as installed; a record that could not be written settles no call and the install has failed |
| `ComponentInstaller.Installer.DriverRunOver` | src/core/component-installer.ts:613-625 | After the driver run the install is gone, each call of a failed one rejected once, and the queue moves on |
| `ComponentInstaller.Installer.TakeTurnFor` | src/core/component-installer.ts:343-354 | A removal takes the turn exactly when nothing runs or waits on the platform and the installer is open |
| `ComponentInstaller.Installer.CountAndMark` | src/core/component-installer.ts:422-428 | The mark is set exactly when registered devices and open claims of the version are none |
| `ComponentInstaller.Installer.GiveTurnBack` | src/core/component-installer.ts:363-368 | Every exit of a removal clears the mark and pumps the queue |
| `ComponentInstaller.Installer.ClaimProvision` | src/core/component-installer.ts:468-483 | Refuses exactly the version being removed, otherwise counts one up |
| `ComponentInstaller.Installer.Release` | src/core/component-installer.ts:476-482 | Only the first release counts one down, and no entry stays at zero |
| `WorkerRuns.RemovalNeverUnderADevice` | src/core/component-installer.ts:414-483 | In every run, while a removal is marked, and so whenever the driver removes, no live device and no provision in flight has its platform and version |
| `WorkerRuns.ProvisionEndsEachOnce` | src/core/device-provisioner.ts:111-202 | In every run a provision that got past its driver lookup and is finished has ended its claim and hold as often as it took them, at most once each, and its reservation exactly once; no other has ended a reservation |
| `ProvisionProgress.ReservationReleasedExactlyWithADriver` | src/core/device-provisioner.ts:115-128 | In every run a call that is over has released its reservation exactly once if and only if its platform has a driver, and otherwise not at all |
| `ProvisionProgress.NoDriverKeepsTheReservation` | src/core/device-provisioner.ts:115 | The run of a request without a driver is over with its reservation held |
| `WorkerRuns.CountedByClaimOrRecord` | src/core/device-provisioner.ts:84-109 | In every run a device is counted by claim or record at every moment from claim on; each counter is exactly the number of open claims, and a hold entry exists exactly while a provision holds it |
| `WorkerRuns.RunOk` | src/core/device-provisioner.ts:67-82 | Exact counts, ledgers and marks hold in every reachable state |
| `ProvisionProgress.NeverStuck` | src/core/device-provisioner.ts:111-202 | In every reachable state an unfinished provision can take its next step or the one inside the gate can, and that step brings it nearer to its end |
| `ProvisionProgress.StepCountsDown` | src/core/device-provisioner.ts:111-202 | Every step of the system leaves a provision alone or brings it nearer to its end, whatever the outcome |
| `ProvisionProgress.CanFinish` | src/core/device-provisioner.ts:199-201 | From every reachable state a provision can be brought to its end |
| `ProvisionProgress.RunGateOk` | src/core/device-provisioner.ts:92-108 | In every run the gate is held exactly by the one provision inside a register section |
| `ProvisionOutcomes.ProvisionMovesExactly` | src/core/device-provisioner.ts:67-201 | In every run and for every next event a provision comes to each point if and only if an answer that leads there comes: a ready device ends the call, one that is not ready is destroyed |
| `ProvisionOutcomes.RecordsChangeExactly` | src/core/device-provisioner.ts:171-201 | In every run a record is added only by a commit, with the version held, and stops being live if and only if it is deleted from outside or by a provision destroying a device that was not ready; an answer of the lifecycle changes no record |
| `ProvisionOutcomes.StagesBehind` | src/core/device-provisioner.ts:132-201 | In every run a device being destroyed was registered by its provision and answered not ready; a registered one was provisioned by the driver |
| `ProvisionOutcomes.RemovalMovesExactly` | src/core/component-installer.ts:414-450 | In every run the driver removes if and only if the gate found no live device and no claim, the record is deleted only after it removed, and every other answer ends the removal |
| `DeviceProvisioner.Call.ClaimInGate` | src/core/device-provisioner.ts:67-82 | Claim, version and hold are taken in one section; refused exactly for a version being removed or a baseline without versions, which gives the claim back |
| `DeviceProvisioner.Call.HoldCurrent` | src/core/device-provisioner.ts:73-80 | The version held is the newest at that moment |
| `DeviceProvisioner.Call.ReleaseClaimAndHold` | src/core/device-provisioner.ts:147-150 | Ends the claim once and the hold if there is one |
| `DeviceProvisioner.Call.DriverAnswered` | src/core/device-provisioner.ts:132-143 | A failed driver ends claim, hold and reservation and the call; a success ends none |
| `DeviceProvisioner.Call.EntersRegister` | src/core/device-provisioner.ts:92 | The section begins with the claim and the hold still there |
| `DeviceProvisioner.Call.RecordCommitted` | src/core/device-provisioner.ts:94-99 | The record made has the version held, and the claim still counts |
| `DeviceProvisioner.Call.RegisterAnswered` | src/core/device-provisioner.ts:92-108 | Claim and hold end in the section that commits, committed or failed |
| `DeviceProvisioner.Call.ReadyAnswered` | src/core/device-provisioner.ts:171-201 | A ready device ends the reservation and the call; any other is to be destroyed, with the reservation still held |
| `DeviceProvisioner.Call.DestroyAnswered` | src/core/device-provisioner.ts:188-201 | The reservation ends whether the destroy succeeded or not, and a record not deleted stays |
| `DeviceProvisioner.Call.CaughtThrow` | src/core/device-provisioner.ts:125-154 | A refused claim or a failed registration ends the reservation and the call |
| `DeviceProvisioner.Call.ReleaseReservation` | src/core/device-provisioner.ts:125-128 | The reservation's one release, as the last thing of a path |
| `BaselineRuns.DroppedVersionIsOldAndUnheld` | src/core/baselines.ts:442-463 | In every run, from the check to the destroy, a version being dropped is not the newest, no provision holds it, and the list the pass read has no live device of it |
| `BaselineRuns.ClaimHoldsNewest` | src/core/device-provisioner.ts:73-80 | A hold begins only on the newest version, so never on the one being dropped |
| `BaselineRuns.NewestSurvives` | src/core/baselines.ts:486-515 | No step but a remove of the name lowers its newest version, and a save makes exactly the next one |
| `BaselineRuns.VersionsNeverGoBack` | src/core/baselines.ts:126-130 | Over any run without a remove of the name its newest version never goes back |
| `BaselineRuns.SavedVersionsIncrease` | src/core/baselines.ts:491-495 | Two saves of a name with no remove between them have increasing versions |
| `BaselineOutcomes.VersionsChangeExactly` | src/core/baselines.ts:442-515 | In every run a version appears if and only if a save of its name records it, and goes if and only if its source was destroyed for a drop or a remove that has come to it |
| `BaselineOutcomes.TaskGoesOnExactly` | src/core/baselines.ts:442-463 | In every run the one task goes on as its answers say: a pass stops at each replaced version that nothing uses, in order, and ends at a source it cannot destroy |
| `BaselineDrops.DroppedUnderADeviceExactly` | src/core/baselines.ts:442-463 | For every run up to a pass and every version: the pass can come to drop it under a live device if and only if, when the list is read, it has no live device, a provision that holds it has yet to commit its record, and an earlier row is not in use |
| `BaselineDrops.UnheldNeverDroppedUnderADevice` | src/core/baselines.ts:453-461 | A version that no provision holds when the list is read is never dropped under a device in that pass |
| `BaselineDrops.LiveVersionCanBeDropped` | src/core/baselines.ts:449-461 | A run from a fresh start in which a pass drops a version under a live device |
| `BaselineRuns.BaselineRunOk` | src/core/baselines.ts:442-463 | Ascending versions and the state of a drop pass hold in every reachable state |
| `BaselineService.Service.CurrentVersion` | src/core/baselines.ts:219-235 | Answers the newest row, and nothing exactly when the name has none |
| `BaselineService.Service.HoldVersion` | src/core/baselines.ts:177-179 | Counts one more hold on the version |
| `BaselineService.Service.ReleaseVersion` | src/core/baselines.ts:180-184 | Counts one down and drops the entry at zero |
| `BaselineService.Service.InsertVersion` | src/core/baselines.ts:486-515 | The new row is the newest, its version above every other of the name |
| `BaselineService.Service.VersionInUse` | src/core/baselines.ts:453-460 | The in-use test: held, or a live device of it in the list read |
| `BaselineService.Service.NextToDrop` | src/core/baselines.ts:450-461 | The loop stops at the first row not in use, and ends only if all were in use |
| `BaselineService.Service.DeleteVersion` | src/core/baselines.ts:476-478 | Deletes the one row of that version |
| `Gate.OneSectionInCallOrder` | src/core/serialized-decision.ts:9-22 | Over every order of calls, entries and ends, a section runs only when all called before it have ended, so at most one runs |
| `Gate.TurnIsPassedOn` | src/core/serialized-decision.ts:17-21 | Whether sections return or throw, while one is left, one runs or can enter |
| `Gate.RunIsChained` | src/core/serialized-decision.ts:10-16 | Each section awaits the promise of the one before, resolved exactly when it has ended |
| `Gate.SerializedDecision.Run` | src/core/serialized-decision.ts:9-16 | The synchronous part of `run` replaces the tail |
| `Gate.SerializedDecision.Resume` | src/core/serialized-decision.ts:16-18 | A call enters exactly when the promise it awaits is resolved |
| `Gate.SerializedDecision.Finish` | src/core/serialized-decision.ts:19-21 | Resolves the section's promise on either outcome |
| `DeviceClaims.OneClaimPerDevice` | src/core/device-operation-claims.ts:21-41 | In every run a device has at most one unreleased claim, the one the map holds |
| `DeviceClaims.OnlyItsOwnReleaseFreesAClaim` | src/core/device-operation-claims.ts:33-37 | Over any run an active claim stays active until its own release, however late or often others are released |
| `DeviceClaims.DeviceOperationClaims.TryClaim` | src/core/device-operation-claims.ts:21-41 | Claims a free device, refuses a claimed one |
| `DeviceClaims.DeviceOperationClaims.Release` | src/core/device-operation-claims.ts:33-37 | Runs once, and frees the device only if the map still holds this claim |
| `DeviceClaims.DeviceOperationClaims.ClaimIdleDevices` | src/core/baselines.ts:421-440 | Claims every live device of the name, or holds no claim it did not hold; in use exactly when one is leased, busy exactly when none is leased and one is claimed |
| `DeviceClaims.DeviceOperationClaims.ClaimEach` | src/core/baselines.ts:430-439 | The claiming loop, all or nothing |
| `DeviceClaims.DeviceOperationClaims.GiveBack` | src/core/baselines.ts:434 | Releasing what the pass took restores the claims of before |
| `AlertRuns.EveryEnvelopeHasOnePlace` | src/alerts/queue.ts:41-61 | In every run each envelope has exactly one fate; waiting ones are the queue in order, at most 100; the one in flight is the current message; after stop all are final |
| `AlertRuns.FatesAreFinal` | src/alerts/queue.ts:105-170 | Delivered, given up, dropped or discarded stays so whatever comes after |
| `AlertRuns.PostsFollowEnqueueOrder` | src/alerts/queue.ts:77-170 | In every run posts follow enqueue order, at most one is open and not aborted, and no envelope is posted more than three times |
| `AlertRuns.InFlightAtMost36Seconds` | src/alerts/queue.ts:7-9 | In every run a message in flight began its first try at most 36 000 ms ago |
| `AlertTime.FiredTimerMovesOn` | src/alerts/queue.ts:127-170 | In every run a timer that fires is consumed, and frees the slot with the message's fate final, or arms a strictly later timer of the same message |
| `AlertTime.OutOfTheSlotInTime` | src/alerts/queue.ts:111-170 | Whatever answers, failures and timeouts come, a message has its final fate in every later state more than 36 000 ms after its first try |
| `AlertTime.SlotIsFreed` | src/alerts/queue.ts:111-170 | From every reachable state the timers alone give a message in flight its final fate by 36 000 ms after its first try |
| `AlertTime.TimeReaches` | src/alerts/queue.ts:127-169 | From every reachable state timers alone bring the clock to any later time |
| `AlertRuns.LateAnswerChangesNothing` | src/alerts/queue.ts:118-125 | An answer to a settled, aborted or superseded post, or with nothing in flight, changes nothing |
| `AlertOutcomes.FateChangesExactly` | src/alerts/queue.ts:41-170 | In every run, for every next event and envelope: delivered if and only if the post it waits for is answered with a status from 200 to 299; given up if and only if its request cannot be built, the answer is neither that nor 429 nor 500 and above, or the third try failed; dropped, discarded and in flight if and only if their causes come |
| `AlertOutcomes.FailedTryWaits` | src/alerts/queue.ts:161-169 | In every run a first or second try that fails for now, by its answer or its timeout, leaves the message in flight with the next try due after 1000 or 5000 ms |
| `AlertOutcomes.WaitEndsInAPost` | src/alerts/queue.ts:166-169 | In every run the wait ends exactly when it is due, with the next post and its timeout of 10 000 ms |
| `AlertOutcomes.BuiltIsPosted` | src/alerts/queue.ts:87-103 | In every run a message whose request was built is posted a first time |
| `AlertOutcomes.FateHasACause` | src/alerts/queue.ts:41-170 | In every run an envelope with a final fate was given it by one event, a cause of that fate |
| `AlertRuns.RunOk` | src/alerts/queue.ts:28-171 | The queue invariant holds in every reachable state |
| `DestinationQueue.Queue.Enqueue` | src/alerts/queue.ts:41-49 | Takes the enqueue step; the envelope is in flight exactly when the slot was free and waits otherwise, and at most 100 wait |
| `DestinationQueue.Queue.Stop` | src/alerts/queue.ts:52-61 | Takes the stop step and answers how many were discarded; every envelope has its final fate |
| `DestinationQueue.Queue.StartMessage` | src/alerts/queue.ts:84-103 | A request that was built is posted a first time, and otherwise the message is given up |
| `DestinationQueue.Queue.Pump` | src/alerts/queue.ts:77-85 | Moves the oldest into the slot when it is free |
| `DestinationQueue.Queue.Start` | src/alerts/queue.ts:87-103 | Builds and posts, or gives up |
| `DestinationQueue.Queue.Attempt` | src/alerts/queue.ts:111-148 | One more post with its timeout |
| `DestinationQueue.Queue.Settle` | src/alerts/queue.ts:120-125 | Counts once, for the message in flight |
| `DestinationQueue.Queue.Decide` | src/alerts/queue.ts:150-170 | A status from 200 to 299 delivers; another below 500 that is not 429, or a third failed try, gives up; otherwise the message waits 1000 or 5000 ms |
| `DestinationQueue.Queue.Finish` | src/alerts/queue.ts:105-109 | Frees the slot and pumps |
| `DestinationQueue.Queue.Answered` | src/alerts/queue.ts:144-147 | An answer that counts decides as `Decide` says; one that does not changes nothing but that it came |
| `DestinationQueue.Queue.Fired` | src/alerts/queue.ts:127-131 | The timer is consumed; a timeout decides as a failed try, a wait posts again, and the message leaves the slot or has a later timer |
| `DestinationQueue.Queue.RunCallback` | src/alerts/queue.ts:127-169 | The callback of a timeout aborts and settles its try; that of a wait begins the next |
| `DestinationQueue.Queue.Advance` | src/alerts/queue.ts:127 | Time passes, up to the armed timer |
| `FollowLogRuns.WritesTheLogOnce` | src/cli/follow-log.ts:69-84 | Across all appends and rotations between reads, what was written is the log from where the tail ended to the place reached, every byte once and in order |
| `FollowLogRuns.QuietPollCatchesUp` | src/cli/follow-log.ts:69-84 | After a poll nothing interrupts, every finished generation and every complete line is written |
| `FollowLogRuns.TailTrustedExactly` | src/cli/follow-log.ts:51-62 | In every run an attempt of the tail is trusted if and only if the rotated file is the one it was at its beginning; otherwise it is read again, three times in all |
| `FollowLogRuns.QuietTailIsTrusted` | src/cli/follow-log.ts:54-62 | In every run an attempt nothing interrupts is trusted and has read the rotated file and every complete line of the current one |
| `FollowLogRuns.WrittenAndRead` | src/cli/follow-log.ts:74-75 | A finished file is written with its last line ended, by at most one newline, and read from an offset without what is before it |
| `FollowLogOvertaken.OvertakenLosesExactlyTheSkipped` | src/cli/follow-log.ts:70-83 | For every run that kept up until two or more rotations came: a quiet poll ends at the newest file, adds the newest finished one from the old offset and the current lines, and the output is still the log if and only if nothing unread was skipped |
| `FollowLogOvertaken.OvertakenInPoll` | src/cli/follow-log.ts:71-77 | For every run with rotations between the look and the read of the rotated file: the output is still the log if and only if the file now there goes on with the very text that was due |
| `FollowLogOvertaken.OvertakenLosesText` | src/cli/follow-log.ts:70-77 | A run that kept up until then and loses a line |
| `FollowLogRuns.RunOk` | src/cli/follow-log.ts:54-84 | The follower's invariant holds after every run that is not overtaken |
| `LogFollower.Follower.InitialTail` | src/cli/follow-log.ts:54-62 | The tail loop takes exactly the reads of the model, up to three attempts |
| `LogFollower.Follower.ReadTail` | src/cli/follow-log.ts:55-61 | One attempt of the tail, trusted exactly when its identity check held |
| `LogFollower.Follower.Poll` | src/cli/follow-log.ts:69-84 | One poll takes exactly the reads of the model |
| `DeviceRoot.CallsAreContained` | src/core/device-root.ts:98-137 | In every run of concurrent daemons a call leaves a non-empty root as it is, changes the root only by publishing its own marked directory, and touches no other daemon's staging directory |
| `DeviceRoot.PublishedRootStaysMarked` | src/core/device-root.ts:124-136 | A published root holds the publisher's complete marker in every later state |
| `DeviceRoot.MarkerStays` | src/core/device-root.ts:84-137 | A marker on the root is never replaced |
| `DeviceRoot.AcceptedByOneInstance` | src/core/device-root.ts:185-210 | Two daemons that accept the root have one instance id and one platform |
| `DeviceRoot.RunOk` | src/core/device-root.ts:55-137 | The invariant holds in every reachable state, crashes at any step included |
| `OwnedRoot.AcceptedExactlyWhenOwn` | src/core/device-root.ts:144-210 | An existing root is accepted exactly when it is the instance's own private directory |
| `RootReasons.RefusedExactlyFor` | src/core/device-root.ts:144-210 | An existing root is refused with each reason if and only if that reason is true of it, the directory checked before the marker's file and that before its text |
| `RootReasons.VerdictsExactly` | src/core/device-root.ts:139-260 | In every run with crashes and faults a daemon is refused with a reason if and only if its call finds it true of the root or the call fails, and accepted if and only if the root it published is private to it or the root holds its own marker |
| `RootReasons.GoesOnExactly` | src/core/device-root.ts:98-137 | In every run a call goes on to each point if and only if a cause of it comes, and the root changes by nothing but a rename onto nothing or an empty directory |
| `OwnedRoot.RootFilesystem.EnsureOwnedRoot` | src/core/device-root.ts:55-82 | For every pattern of failures and of what others do meanwhile, an accepted root is the caller's own, an existing root is not written, staging is cleaned up; a failed look, directory check or step of making is answered unreadable; without failures a missing root is made, and one another was first to make is answered like any existing one |
| `OwnedRoot.RootFilesystem.CreateRoot` | src/core/device-root.ts:98-137 | Made with a complete marker, or found occupied after a lost race, a denial on an existing root included, or failed |
| `OwnedRoot.RootFilesystem.ValidateExisting` | src/core/device-root.ts:139-210 | Accepts only the caller's own root and writes nothing; undisturbed the answer is what the root deserves |
| `OwnedRoot.RootFilesystem.Assemble` | src/core/device-root.ts:109-122 | A complete, private staging directory exactly when no call failed |
| `OwnedRoot.RootFilesystem.Publish` | src/core/device-root.ts:124-136 | The rename replaces nothing or an empty directory |
| `EventBus.Bus.Append` | src/bus/index.ts:511-517 | The ring agrees with the whole history, wrap-around included |
| `EventBus.Bus.PublishAll` | src/bus/index.ts:463-478 | Publishes made by handlers are numbered between their cause and the next publish |
| `EventBus.Bus.Retained` | src/bus/index.ts:519-531 | Exactly the last capacity envelopes, in order |
| `EventBus.Bus.Replay` | src/bus/index.ts:498-509 | Exactly the retained envelopes with a number above the one given and a time after the one given, each once, by time and then number |
| `EventBus.ReplayedExactly` | src/bus/index.ts:498-509 | For every history: a replay has exactly those envelopes, each once, in strictly ascending order of time and number |
| `EventBus.ResumeRepeatsAndMissesNothing` | src/bus/index.ts:498-509 | For every history, replaying from the number of the last envelope seen repeats none that was seen and leaves out none published since that is retained |
| `EventBus.Bus.Create` | src/bus/index.ts:438-443 | Refuses exactly a capacity below one |
| `EventBus.SortedIsUnique` | src/bus/order.ts:6-11 | The order decides the answer: two sorted arrangements of the same envelopes are equal |
| `EventBus.FilteredCounts` | src/bus/index.ts:502-507 | The filter keeps an envelope as often as it occurs when its number is above and its time after what is given, and otherwise not at all |
| `EventBus.SortSorted` | src/bus/order.ts:6-11 | The sort orders by time and then number |
| `ScreenFrames.AnyCutYieldsTheFrames` | e2e/helpers/screen-frames.ts:14-35 | For all frames and all cuts of their stream: after any chunks the longest list of whole frames, after all exactly the frames |
| `ScreenFrames.ReadScreenFrames` | e2e/helpers/screen-frames.ts:14-35 | The frames are what the bytes read decode to, and no chunk is read after there are enough |
| `ScreenFrames.TakeFrames` | e2e/helpers/screen-frames.ts:27-32 | The inner loop terminates and takes every whole frame |
| `ScreenFrames.DecodeInParts` | e2e/helpers/screen-frames.ts:23-32 | Decoding in parts equals decoding the whole, for any bytes |
| `ScreenFrames.DecodePrefix` | e2e/helpers/screen-frames.ts:27-32 | Any prefix of a stream decodes to the longest list of frames that fits |
| `ScreenFrames.StreamRoundTrip` | e2e/console/screen-capture.ts:35-40 | Writing and reading any frames gives them back with nothing left |
| `OsRange.ComparatorMeaning` | src/contract/os-range.ts:87-121 | For every dotted version: `<V` is older, `>V` newer, `>=` and `<=` their complements, `>=V <=V` the prefix match |
| `OsRange.OlderPrefixOrNewer` | src/contract/os-range.ts:123-135 | Exactly one of older, zero-padded prefix and newer holds |
| `OsRange.BetweenMeaning` | src/contract/os-range.ts:62-68 | `>=A <=B` is neither older than A nor newer than B |
| `OsRange.NotANumberSatisfiesNothing` | src/contract/os-range.ts:109-121 | A first segment that is not a number satisfies no range |
| `OsRange.WithinNoneExactly` | src/contract/os-range.ts:109-121 | For every version: it satisfies no range if and only if its first segment is not a number |
| `OsRange.ComparesExactlyBeforeNaN` | src/contract/os-range.ts:128-135 | A comparison is a number if and only if a segment before the first NaN differs |
| `OsRange.BelowAGreaterFirst` | src/contract/os-range.ts:116-120 | A version whose first segment is a number is in the range below any greater one, whatever follows |
| `OsRangeText.HyphenIsTwoComparators` | src/contract/os-range.ts:53-81 | For all versions `A - B` and `>=A <=B` parse to the same bounds |
| `OsRangeText.HyphenRangeMeaning` | src/contract/os-range.ts:53-121 | From text to answer: `A - B` accepts exactly the versions between |
| `OsRangeText.ComparatorParses` | src/contract/os-range.ts:71-98 | For every operator and every version text the comparator parses to exactly its bound |
| `OsRangeText.ComparatorRangeMeaning` | src/contract/os-range.ts:53-121 | From text to answer, for every operator and all dotted versions: accepted exactly when older, newer, or one of them or a version that starts with the bound |
| `OsRangeText.SatisfiesNoRangeExactly` | src/contract/os-range.ts:53-121 | From text to answer, for every version: no range that parses accepts it if and only if its first segment is not a number |
| `OsRangeText.ParsedRangesAreBounded` | src/contract/os-range.ts:53-81 | Every range that parses has a bound, and each bound a side |
| `OsRangeText.ComparatorBounds` | src/contract/os-range.ts:71-81 | The loop reads every token or refuses the text |
| `OsGrammar.ExactAcceptsItselfAlone` | src/contract/os-range.ts:45-114 | From text to answer: a text that is not empty and not written as a range accepts the version that is that text and no other |
| `OsGrammar.BareVersionMeaning` | src/contract/os-range.ts:53-114 | From text to answer: a version of digits and dots accepts itself and no other version |
| `OsGrammar.ReleaseNameMeaning` | src/contract/os-range.ts:39-55 | From text to answer: a release name, letters, digits, hyphens and underscores other than a lone `x`, accepts itself and nothing else |
| `OsGrammar.NamedReleases` | src/contract/os-range.ts:39-55 | `Baklava` and `34-ext12` are constraints and accept exactly themselves |
| `OsGrammar.ParsesExactlyTheGrammar` | src/contract/os-range.ts:32-81 | A text is a constraint if and only if it is not empty and is an exact version, a hyphen range of two versions, or comparators with single spaces between them |
| `OsGrammar.OtherRangeFormsAreRefused` | src/contract/os-range.ts:45-60 | Every text with a caret, a tilde, a star, two bars or an `x` segment is refused |
| `OsGrammar.ListMeaning` | src/contract/os-range.ts:70-121 | From text to answer: a list of comparators accepts exactly the dotted versions every one of them accepts |
| `OsGrammar.XSegmentIsLoneX` | src/contract/os-range.ts:49 | A segment between dots is an `x` exactly where an `x` has a dot or an end of the text on both sides |
| `VersionOrder.NewerIsSectionEleven` | src/contract/version-order.ts:14-30 | On the text of every version without hyphens in pre-release parts and without build metadata, newer is precedence of section 11 of Semantic Versioning 2.0.0 |
| `VersionOrder.NewerIsPrecedence` | src/contract/version-order.ts:14-30 | On every split form with a numeric core, newer is that precedence |
| `VersionOrder.StrictWeakOrder` | src/contract/version-order.ts:14-30 | It is a strict weak order there, equal only in meaning |
| `VersionOrder.NoOrderWithoutNumericCore` | src/contract/version-order.ts:17-20 | Any other split form breaks it, with the versions that show it |
| `VersionOrder.PrecedenceOrder` | src/contract/version-order.ts:6-12 | The reference precedence is a strict total order |
| `VersionOrder.SplitReadsVersion` | src/contract/version-order.ts:1-4 | Splitting the text of such a version reads it back |
| `VersionOrder.SecondHyphenIsDropped` | src/contract/version-order.ts:2 | What follows a second hyphen does not count |
| `VersionOrder.NewerIsPrecedenceOfCut` | src/contract/version-order.ts:1-30 | On the text of every version of the standard without build metadata, hyphens included, newer is precedence of the versions cut at the first pre-release hyphen |
| `VersionOrder.SplitReadsCut` | src/contract/version-order.ts:1-4 | Splitting the text of such a version reads the version cut there |
| `VersionOrder.HyphenHidesPrecedence` | src/contract/version-order.ts:2 | A pair that section 11 orders and the code does not |
| `VersionOrder.IsNewerVersion` | src/contract/version-order.ts:14-30 | The loops compute the comparison of the split forms |
| `Csv.LedgerRoundTrip` | src/cli/csv.ts:46-52 | For all entries, reading the output by section 2 of RFC 4180 gives the header and the guarded texts |
| `Csv.NoFormulaSurvives` | src/cli/csv.ts:40-44 | No decoded data cell has `=`, `+`, `-` or `@` as its first character that is not blank; a cell is unchanged unless it had, and then has one quote in front |
| `Csv.CellRoundTrip` | src/cli/csv.ts:40-44 | A printed cell reads back as its guarded text, before any separator |
| `Tokens.JoinsNeverBothWin` | src/auth/index.ts:106-119 | In every run two joins with one token win only under one worker id; under one worker id with two tokens only if one token is revoked by now; every id that wins has the allowed form |
| `Tokens.PinNeverChanges` | src/auth/token-store.ts:82-91 | Over any run a pin once set stays while its token lives, and a revoked token never comes back |
| `Tokens.LivePinsAreUnique` | src/auth/token-store.ts:22-25 | In every run no two live tokens share a pin or a hash |
| `Tokens.FirstToPinWins` | src/auth/index.ts:114-118 | Of two joins that read the same unpinned record the first to pin wins and the other loses unless it claims the same id |
| `Tokens.RevokedSinceRead` | src/auth/index.ts:108-118 | For every run, every join not yet answered and every token that is gone: the next step has the join won for it if and only if its pin was taken before, or the record it read was pinned to the id it claims |
| `Tokens.RevokedTokenIsAccepted` | src/auth/index.ts:108-118 | For every token and allowed worker id, a run in which a join that read a pinned record is accepted after the token was revoked |
| `Tokens.RevokedAfterPinIsAccepted` | src/auth/index.ts:114-118 | For every token and allowed worker id, a run in which the token is revoked between the pin of an unpinned record and the answer, and the join is accepted |
| `TokenAnswers.JoinAnsweredExactly` | src/auth/index.ts:106-119 | In every run a join is answered by its own resumption alone: unauthenticated if and only if no token had the credential, forbidden if and only if the token is not a worker's, mismatched if and only if the id is not allowed, the token is pinned to another or the pin was not taken, accepted if and only if the pin was taken or the token read was pinned to that id |
| `TokenAnswers.JoinBeginsWithTheRow` | src/auth/index.ts:106-108 | In every run a join without a credential is answered at once, and any other begins with the row that has its hash at that moment, if there is one |
| `TokenStore.Store.PinWorker` | src/auth/token-store.ts:83-91 | True exactly when the token is live and pinned to the id already, or unpinned with the id free |
| `TokenStore.Store.CreateToken` | src/auth/token-store.ts:54-69 | Stores an unpinned row, or nothing when id or hash is taken |
| `TokenStore.Store.RevokeToken` | src/auth/token-store.ts:75-80 | Deletes the row and says whether there was one |
| `TokenStore.Store.FindByHash` | src/auth/token-store.ts:93-98 | The row with the hash, if there is one |
| `TokenStore.UplinkJoin.constructor` | src/auth/index.ts:106-108 | The first stretch of a join, up to the record it verified |
| `TokenStore.UplinkJoin.ResumeJoin` | src/auth/index.ts:108-119 | The later stretches take the step of the model, on table and join, and give each answer exactly for its cause |

## Left out

- Registry, lifecycle, capacity strategies, leasing and warm pool: only the state and outcomes the modelled files use.
- Component installer: progress reports and `latest`, `inProgress`, `list`, the checks of `#removable` before the turn is taken, the dry run, events and logs, and the bytes of the disk reservation; they carry no state the queues depend on.
- Timers fire when due: time does not pass an armed timer, so a timer the runtime fires late is outside the bounds in milliseconds.
- Removals and install queues share the turn in two systems: `InstallQueue` knows who holds a platform's turn, `Worker` knows the mark and the counts.
- Physical devices use no component and are not in the device count.
- `BaselineService.#serial` is modelled as one task at a time; its order of arrival is the promise chain of `Gate`.
- Baselines: `removeAll`, `checkStale`, `list`, `nameSources` and the disposal of idle older devices in a save; a remove's rows are modelled, its device claims are `ClaimIdleDevices`.
- `BaselineService.Service.ReleaseVersion`: a release called twice takes another's hold; provisions call it once, which `ProvisionEndsEachOnce` proves.
- Log follower: escaping of control characters, the choice of the last lines of the tail, byte lengths of UTF-8 and failed reads; the tail's text itself is in `FollowOk`.
- Device roots: the check for an absolute path, and others deleting or remarking a root, are outside the model; others may create a root, add entries and a missing marker, and change owner and mode.
- Event bus: registration of subscribers and isolation of a throwing handler; what handlers publish is a tree of reactions.
- Numbers of the source are doubles: infinities and lost precision of very long digit strings are not modelled. `Number` of a text that is not digits is a parameter.
- Strings are sequences of characters, not UTF-16 units; the order of text compares them by code point.
- Csv: how dates, durations and missing values become text (`cellText`) is left to the caller.
- Csv reader: takes any character but comma, quote and line break in a plain field, which is wider than section 2 of RFC 4180.
- Tokens: labels, times and hashing; ids are taken never to be generated twice.
- Auth: the other strategies, `authenticateRequest`, hello roles and the admin secret are short branches.
- Config: the layer merge and the validator tables of `src/core/config.ts`.
- Schemas, command line, console, client, gateway and agent device modules: wiring, formats and I/O.
