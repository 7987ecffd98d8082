# Security component service: model and proofs

The security component service lets an application draw a location, paste or save
button and receive the matching permission for a short time when the user really
clicks it. This project models the service, its client library and the formats
between them in Dafny, and proves what they keep over all runs and all inputs.

## What is modelled

* **Temporary permissions** (`TaskNames`, `EventHandler`, `PermManager`, `SaveTimers`):
  the save counter with its queue of 60-second tasks, the record of granted
  permissions, delayed, immediate and cancelled revocation, and the delayed tasks as
  an ordered collection from which tasks are removed by name.
* **The service** (`MaliciousApps`, `Entity`, `FirstUseDialog`, `Registry`, `Service*`,
  `Calls`, `Manager`, `AppState`): one state machine over registration, update, click,
  dialog, foreground, background, death, application-manager death, pre-registration and
  timer steps. Each section under a mutex is one step; a click, a closing dialog and a
  dying process interleave as far as the component lock and the dialog-map lock allow.
  `Service` is the machine; `ServiceSafety`, `ServiceTasks`, `ServiceBackground`,
  `ServiceExit`, `ServiceClicks`, `ServiceDialog`, `ServiceMalicious`, `ServiceOrigin` and
  `ServiceSave` prove one property each over its runs, and `ServiceRuns` holds runs from a fresh service
  that show why their conditions are needed. `Calls` says what each whole call does when
  nothing comes between its sections, and proves that it is those sections. The classes
  update their fields as the service does, and each method of `Manager` changes its
  `Snapshot` as the whole call does.
* **Geometry** (`Geometry`, `RoundedRect`, `ScreenCheck`, `WindowCover`, `WindowScan`):
  rounded rectangles on a round screen, rounded rectangles against windows, and the scan
  over all windows, each against a specification by sets of points or windows.
* **Formats** (`Parcel`, `ClickWire`, `ClickPath`, `Json`, `ComponentJson`): the click
  request and its reply byte by byte, the first-use record, and the component JSON.
* **Client proxy** (`ClientProxy`): callers, the loader's callbacks and death notices over
  three mutexes.

`Types` holds what all of them share.

## Hypotheses

These are visible in the model, most of them in `Service.Enabled`, `Service.RoomyRun`,
`SaveTimers.Enabled` and the parameters named.

* A live process always calls with the same token, and revocations through the token kit
  succeed.
* Clock readings used in task names strictly increase and keep their number of digits.
  Tasks of equal delay run in posting order. A save task runs a minute after it was
  posted, so its name is queued by then. Taking a task off the handler and running it is
  one step.
* Fewer ids are live than exist (2147482648), and an id is not handed out again while a
  dialog waits on it or a registration with it is unfinished.
* Every section under a mutex is one step; a registration, an update, a click, a death, the
  application manager's death and a pre-registration are several. A call's check of the
  malicious list is a step of its own; the other short sections of that list are part of the
  section they belong to or lead into.
* Answers from outside are inputs: the kit's results, the sandbox flag, the display, the
  window list, the enhanced checks, the start of the dialog, the loader, the caller's
  identity.
* The text of the first-use record is the compact form its JSON library writes.
* Distances are given by their squares: a square root the code takes is an input whose
  square is what the code takes it of.

## Where the code does not do what one might expect

Each of these is a lemma with a concrete input or run. Next to it stands the lemma that
says when the code does meet the property; "exactly" marks an if-and-only-if.

* **Save permission.** A click's and a closing dialog's grant of one token can overlap and
  queue their names in the other order than their tasks; the permission then never expires by
  itself (`SaveTimers.OverlappingGrantsNeverExpire`, and from a fresh service
  `ServiceRuns.OverlapKeepsSavePermission`). Exactly: `SaveTimers.InStepIffInOrder`.
* **Task names.** Two tokens can share one when clock readings differ in width
  (`TaskNames.SaveTaskNamesCollide`). Exactly: `TaskNames.ClocksCollide` for two widths,
  `TaskNames.SaveTaskNameInjective` for one.
* **Both locations or neither.** A second kit call that fails takes away an approximate
  permission that was there before; a revoke task between the two calls splits the pair
  (`PermManager.RevokeBetweenLocationCallsSplitsPair`). Exactly:
  `PermManager.LocationGrantKeepsPair` without interruption, `PermManager.SecondLocationCall`
  whatever came between.
* **Background.** A dialog closed in the background after the revocation ran grants without
  an end (`ServiceBackground.DialogClosedInBackground`, reached by
  `ServiceRuns.WaitingIsReachable`). Exactly: `ServiceBackground.BackgroundIffCovered`.
* **Exit.** The first pre-registration takes back the exit task while nothing is registered
  (`ServiceExit.FirstPreRegistrationStopsExit`). Exactly: `ServiceExit.ExitIsWatched`.
* **Save without a save dialog.** A location dialog sets the save bit when the component is
  reported as a save button in time (`ServiceRuns.LocationDialogSetsSaveBit`). Exactly:
  `ServiceDialog.BitAgreesWithDialog`.
* **The permission that was clicked.** A covered save click can end in both location
  permissions (`ServiceRuns.CoveredSaveClickGivesLocation`). Exactly:
  `ServiceClicks.DialogGrantFollows`.
* **Listed processes.** An update that was checked before its process was listed is still
  carried out (`ServiceRuns.ListedProcessUpdates`). Exactly:
  `ServiceMalicious.ListedCallsChangeNothing`.
* **First-use record.** Over 102400 bytes it is written but never loaded; 3792 records are
  enough (`FirstUseDialog.FileWidth`). Exactly: `FirstUseDialog.RecordRoundTrip`.
* **Window edges.** A window whose right or bottom edge is negative is compared in unsigned
  arithmetic (`WindowCover.WrappedEdgeMisjudged`). Exactly: `WindowCover.OverlapExact`.
* **Window scan.** It depends on the list's order when the component's window is listed twice
  (`WindowScan.ListedTwiceDependsOnOrder`; exactly: `WindowScan.OrderMattersOnlyBetweenLayers`),
  and misses layers of 2^31 and more (`WindowScan.HugeLayerIsMissed`; exactly:
  `WindowScan.ScanMisses`).
* **Refused requests.** The service's own refusals of a click request reach the client as the
  parcel error, since an error reply carries no message (`ClickWire.ErrorReplyHasNoMessage`).
  Exactly: `ClickWire.ClickRoundTrip`.
* **Death notices.** A failed cast leaves a death observer behind, whose notice later drops a
  live proxy (`ClientProxy.FailedCastDropsLiveProxy`). Exactly: `ClientProxy.NoticesAreOwn`.
* **Dialog without a display.** It leaves its component waiting although the click failed
  (`FirstUseDialog.NotifyMeaning` gives every case).
* **Placeholders.** A claimed foreground placeholder outlives the background notice
  (`AppState.ClaimedPlaceholderOutlivesBackground`). Exactly:
  `AppState.AccurateUnlessClaimed`.

## Model

| member | source | states |
|---|---|---|
| Types.ResultCodes | interfaces/inner_api/security_component/include/sec_comp_err.h:23-54 | The result codes as the interface numbers them |
| TaskNames.SaveTaskNameInjective | services/security_component_service/sa/sa_main/sec_comp_perm_manager.cpp:73-80 | A save task's name, the decimal token followed by the decimal clock, determines both when clock readings have one width |
| TaskNames.SaveTaskNamesCollide | services/security_component_service/sa/sa_main/sec_comp_perm_manager.cpp:73-80 | One pair of tokens and readings that shares a name |
| TaskNames.NamesOfTwoClocks | services/security_component_service/sa/sa_main/sec_comp_perm_manager.cpp:73-80 | Readings of different widths give two tokens one name exactly when the shorter reading ends the longer and the first token's digits are the second's followed by what the longer one has more |
| TaskNames.ClocksCollide | services/security_component_service/sa/sa_main/sec_comp_perm_manager.cpp:73-80 | For two readings: some two 32-bit tokens share a name exactly when the shorter reading ends the longer and a 1 before the extra digits is still a 32-bit number |
| TaskNames.NamesApart | services/security_component_service/sa/sa_main/sec_comp_perm_manager.cpp:219-265 | Save, revoke-all and exit tasks never share a name, and revoke-all names determine the token |
| EventHandler.SecEventHandler.ProxyPostTask | services/security_component_service/sa/sa_main/sec_event_handler.cpp:28-32 | A posted task comes last in the order |
| EventHandler.SecEventHandler.ProxyRemoveTask | services/security_component_service/sa/sa_main/sec_event_handler.cpp:34-37 | Removal takes every task with the name and keeps the order of the rest |
| EventHandler.WithoutMember | services/security_component_service/sa/sa_main/sec_event_handler.cpp:34-37 | What remains after removal by name is exactly what has another name |
| PermManager.AccessTokenKit.GrantPermission | services/security_component_service/sa/test/mock/src/accesstoken_kit.cpp:42-54 | A successful grant adds exactly the pair; a failed one changes nothing |
| PermManager.AccessTokenKit.RevokePermission | services/security_component_service/sa/test/mock/src/accesstoken_kit.cpp:27-40 | A revocation takes exactly the pair away |
| PermManager.SecCompPermManager.GrantTempSavePermission | services/security_component_service/sa/sa_main/sec_comp_perm_manager.cpp:73-86 | Posts the 60 s task, then queues its name and counts once |
| PermManager.SecCompPermManager.RevokeTempSavePermissionCount | services/security_component_service/sa/sa_main/sec_comp_perm_manager.cpp:88-112 | Takes the oldest queued name with its task away and counts down, dropping the key at zero |
| PermManager.SecCompPermManager.RevokeTempSavePermission | services/security_component_service/sa/sa_main/sec_comp_perm_manager.cpp:114-127 | Removes the count, every queued name and every task with one of those names |
| PermManager.SecCompPermManager.VerifySavePermission | services/security_component_service/sa/sa_main/sec_comp_perm_manager.cpp:129-138 | True exactly for a token with a non-zero count |
| PermManager.SecCompPermManager.GrantAppPermission | services/security_component_service/sa/sa_main/sec_comp_perm_manager.cpp:187-198 | Grants through the kit and records the permission whatever the kit answered |
| PermManager.SecCompPermManager.RevokeAppPermission | services/security_component_service/sa/sa_main/sec_comp_perm_manager.cpp:200-211 | Revokes through the kit and takes the record away |
| PermManager.SecCompPermManager.RevokeAppPermisionsImmediately | services/security_component_service/sa/sa_main/sec_comp_perm_manager.cpp:237-253 | The loop leaves the token with nothing recorded and takes exactly the recorded permissions from the kit, in any order of the set |
| PermManager.SecCompPermManager.RevokeAppPermisionsDelayed | services/security_component_service/sa/sa_main/sec_comp_perm_manager.cpp:219-235 | Posts one revoke-all task |
| PermManager.SecCompPermManager.CancelAppRevokingPermisions | services/security_component_service/sa/sa_main/sec_comp_perm_manager.cpp:255-265 | Removes every revoke-all task of the token |
| PermManager.SecCompPermManager.RevokeAppPermissions | services/security_component_service/sa/sa_main/sec_comp_perm_manager.cpp:213-217 | Revokes at once and cancels what was pending |
| PermManager.SecCompPermManager.GrantTempPermission | services/security_component_service/sa/sa_main/sec_comp_perm_manager.cpp:279-323 | The whole grant equals its mutex-guarded sections run one after another, for every component type and every answer of the kit |
| PermManager.GrantMeaning | services/security_component_service/sa/sa_main/sec_comp_perm_manager.cpp:279-323 | An uninterrupted grant succeeds exactly for a real token and successful kit calls (no sandbox for save), and then gives exactly its type's permissions and its one revoke task; a failed one gives nothing |
| PermManager.GrantRecords | services/security_component_service/sa/sa_main/sec_comp_perm_manager.cpp:279-323 | What a grant records for the later revocation, for every type and every answer; a location grant rolled back leaves the precise permission recorded |
| PermManager.SectionKeepsRecorded | services/security_component_service/sa/sa_main/sec_comp_perm_manager.cpp:163-198 | Every permission held through the component flag stays recorded, section by section |
| PermManager.RevokeNowTakesAll | services/security_component_service/sa/sa_main/sec_comp_perm_manager.cpp:237-253 | Hence immediate revocation leaves the token with no permission and touches no other token |
| PermManager.LocationGrantKeepsPair | services/security_component_service/sa/sa_main/sec_comp_perm_manager.cpp:279-303 | Both location permissions or neither before means so afterwards, exactly unless both were held and only the second kit call fails |
| PermManager.LocationGrantFromNothing | services/security_component_service/sa/sa_main/sec_comp_perm_manager.cpp:279-303 | From nothing recorded: both permissions on success, none on failure |
| PermManager.RevokeBetweenLocationCallsSplitsPair | services/security_component_service/sa/sa_main/sec_comp_perm_manager.cpp:279-303 | For every token and state: a revoke task between the two kit calls leaves the precise permission alone |
| PermManager.SecondLocationCall | services/security_component_service/sa/sa_main/sec_comp_perm_manager.cpp:279-303 | Whatever came between the two kit calls: a second call that succeeds leaves both or neither exactly when the approximate permission was still held, one that fails exactly when the precise one was not held before the rollback |
| SaveTimers.StepKeeps | services/security_component_service/sa/sa_main/sec_comp_perm_manager.cpp:44-138 | Every step keeps queue, count and pending tasks in line for every token |
| SaveTimers.PushInStepIffOldest | services/security_component_service/sa/sa_main/sec_comp_perm_manager.cpp:73-86 | Queueing a name outside the post's lock keeps the line exactly when the grant is the oldest one not yet queued |
| SaveTimers.InStepIffInOrder | services/security_component_service/sa/sa_main/sec_comp_perm_manager.cpp:44-138 | Over every run: queue, count and tasks stay in line exactly when each queued name belongs to the oldest grant of its token not yet queued |
| SaveTimers.SavePermissionLastsAsLongAsAGrant | services/security_component_service/sa/sa_main/sec_comp_perm_manager.cpp:44-138 | Over every such run: the permission verifies exactly when some grant since the last revoke-all has not had its task fire, the count is the length of the queue, and the queue is the pending tasks in firing order |
| SaveTimers.OverlappingGrantsNeverExpire | services/security_component_service/sa/sa_main/sec_comp_perm_manager.cpp:73-86 | Two overlapping grants queued in the other order leave a count of one with no task pending |
| MaliciousApps.ListedMeaning | services/security_component_service/sa/sa_main/sec_comp_malicious_apps.cpp:29-62 | Over every history: listed exactly when four failures came in a row since the last removal; a reset never delists |
| MaliciousApps.CountIsStreak | services/security_component_service/sa/sa_main/sec_comp_malicious_apps.cpp:38-62 | The 32-bit counter is the length of the current row of failures |
| MaliciousApps.SecCompMaliciousApps.IsInMaliciousAppList | services/security_component_service/sa/sa_main/sec_comp_malicious_apps.cpp:29-36 | Root is never blocked |
| MaliciousApps.SecCompMaliciousApps.AddAppToMaliciousAppList | services/security_component_service/sa/sa_main/sec_comp_malicious_apps.cpp:38-49 | Counts one more and lists the process above the limit |
| MaliciousApps.SecCompMaliciousApps.RemoveAppFromMaliciousAppList | services/security_component_service/sa/sa_main/sec_comp_malicious_apps.cpp:51-56 | Forgets process and counter |
| MaliciousApps.SecCompMaliciousApps.ResetAppMaliciousFailCount | services/security_component_service/sa/sa_main/sec_comp_malicious_apps.cpp:58-62 | Forgets the counter only |
| Entity.ClickSoundness | services/security_component_service/sa/sa_main/sec_comp_manager.cpp:450-685 | A click gets as far as the dialog exactly when message, report, rectangle, enhanced check, cover and event allow it; without custom authorisation nothing is excused |
| Entity.RefusedClick | services/security_component_service/sa/sa_main/sec_comp_manager.cpp:450-685 | What a refused click answers: the first thing that failed decides, in terms of the report and the answers that came with it; SC_OK only if the application may read the pasteboard anyway |
| Entity.ClickCounts | services/security_component_service/sa/sa_main/sec_comp_manager.cpp:481-685 | When a click counts as a failure (a report the enhanced check refuses, or a forged event of a click that is otherwise genuine) and when it ends the row of failures |
| Entity.ClickCheckMeaning | services/security_component_service/sa/sa_main/sec_comp_entity.cpp:124-177 | The entity's own check passes exactly for an uncovered (or save) component and a genuine event, seen against the rectangle as it was reported |
| Entity.ClickStoresReport | services/security_component_service/sa/sa_main/sec_comp_manager.cpp:450-498 | Exactly what a click leaves behind: when its report is stored and moved by the fold offset, when the offset is read, when the component is marked for a passed-over check; the owner never changes |
| Entity.SecCompEntity.AllowToBypassSecurityCheck | services/security_component_service/sa/sa_main/sec_comp_entity.h:60-73 | Only a save component of an authorised application with a message is excused, and is marked so |
| Entity.SecCompEntity.GrantTempPermission | services/security_component_service/sa/sa_main/sec_comp_entity.cpp:42-46 | Marks the component granted and grants its type's permission to its token |
| Entity.SecCompEntity.CheckPointEvent | services/security_component_service/sa/sa_main/sec_comp_entity.cpp:53-85 | Accepts exactly a touch at most five seconds old and less than 1.001 outside the rectangle, as it is or after the crossing shift; the touch that counts is returned |
| Entity.SecCompEntity.CheckKeyEvent | services/security_component_service/sa/sa_main/sec_comp_entity.cpp:87-108 | Accepts exactly a press at most five seconds old of the keys 2050, 2054 and 2119 |
| Entity.SecCompEntity.IsInPCVirtualScreen | services/security_component_service/sa/sa_main/sec_comp_entity.cpp:110-122 | Display 999 without crossing |
| Entity.SecCompEntity.CheckClickInfo | services/security_component_service/sa/sa_main/sec_comp_entity.cpp:124-177 | The steps in place, shift included, equal the specified check |
| FirstUseDialog.NotifyMeaning | services/security_component_service/sa/sa_main/first_use_dialog.cpp:425-572 | For every component type, bit and answer: whether a click goes on without a dialog, what the caller is told, and exactly what the wait map then holds |
| FirstUseDialog.SetFirstUseKeepsBits | services/security_component_service/sa/sa_main/first_use_dialog.cpp:485-517 | First-use bits are only ever added |
| FirstUseDialog.RecordRoundTrip | services/security_component_service/sa/sa_main/first_use_dialog.cpp:212-317 | Saving and loading gives back the entries of non-zero tokens that still exist, for every walking order and for the empty map, exactly when the file's text is not too large or nothing was to be given back |
| FirstUseDialog.FileWidth | services/security_component_service/sa/sa_main/first_use_dialog.cpp:256-317 | 1861 records always fit into a file that is loaded, 3792 never do |
| FirstUseDialog.RecordRead | services/security_component_service/sa/sa_main/first_use_dialog.cpp:212-254 | A record is read exactly if both its tags hold numbers and the token is not 0 modulo 2^32 |
| FirstUseDialog.RecordTags | services/security_component_service/sa/sa_main/first_use_dialog.cpp:277-317 | The tags the file is written under |
| FirstUseDialog.ItemsReadBack | services/security_component_service/sa/sa_main/first_use_dialog.cpp:212-254 | The list of records reads back as the surviving part of the map |
| FirstUseDialog.FirstUseDialog.ParseRecords | services/security_component_service/sa/sa_main/first_use_dialog.cpp:235-254 | Skips bad records and keeps the others |
| FirstUseDialog.FirstUseDialog.LoadFirstUseRecord | services/security_component_service/sa/sa_main/first_use_dialog.cpp:256-275 | A missing, oversized or unreadable file changes nothing |
| FirstUseDialog.FirstUseDialog.SaveFirstUseRecord | services/security_component_service/sa/sa_main/first_use_dialog.cpp:277-317 | Writes the existing tokens in walking order; nothing written stays null |
| FirstUseDialog.FirstUseDialog.RemoveDialogWaitEntitys | services/security_component_service/sa/sa_main/first_use_dialog.cpp:319-330 | Erasing while walking removes exactly the process's components |
| FirstUseDialog.FirstUseDialog.GrantDialogWaitEntity | services/security_component_service/sa/sa_main/first_use_dialog.cpp:332-361 | Grants the waiting component once and takes it out of the map whether or not the grant succeeds |
| FirstUseDialog.FirstUseDialog.StartDialogAbility | services/security_component_service/sa/sa_main/first_use_dialog.cpp:425-469 | A dialog without a display leaves the component waiting; a failed start does not |
| FirstUseDialog.FirstUseDialog.NotifyFirstUseDialog | services/security_component_service/sa/sa_main/first_use_dialog.cpp:519-572 | The branches over type and bits equal the specified decision |
| FirstUseDialog.FirstUseDialog.SetFirstUseMap | services/security_component_service/sa/sa_main/first_use_dialog.cpp:485-517 | Sets the save bit and posts the saving of the record |
| FirstUseDialog.FirstUseDialog.OnDialogClosed | services/security_component_service/sa/sa_main/first_use_dialog.cpp:100-118 | Grant, first-use bit and report to the caller, for every result of the dialog |
| Calls.DialogIsItsSteps | services/security_component_service/sa/sa_main/first_use_dialog.cpp:100-118 | That is the machine's closing, grant sections and first-use bit with nothing between them |
| Calls.DialogOutcome | services/security_component_service/sa/sa_main/first_use_dialog.cpp:100-118 | After it the component no longer waits, whatever the grant gave; exactly a save grant that succeeded sets the token's bit and has the record saved |
| Calls.ClosingBegins | services/security_component_service/sa/sa_main/first_use_dialog.cpp:100-118 | Only a dialog closed with result 0, of a component that waits, begins a grant |
| Registry.FirstFreeMeaning | services/security_component_service/sa/sa_main/sec_comp_manager.cpp:79-90 | The search ends within live + 1 rounds at the first free id in cyclic order over 1000 to 2147483647, by counting |
| Registry.AddRefinesFlat | services/security_component_service/sa/sa_main/sec_comp_manager.cpp:92-120 | Adding a fresh id is an insertion into one flat map, puts its process in the foreground and keeps its token, ids stay distinct and lists at most 501 long; when it fails, and nothing then changes |
| Registry.DeleteRefinesFlat | services/security_component_service/sa/sa_main/sec_comp_manager.cpp:122-145 | Deleting succeeds exactly for the owner, removes from the flat map and changes nothing else |
| Registry.FlatHolds | services/security_component_service/sa/sa_main/sec_comp_manager.cpp:176-194 | Looking through a process's list is a lookup in the flat map |
| Service.StepWf | services/security_component_service/sa/sa_main/sec_comp_manager.cpp:65-498 | Every step keeps ids distinct, in range and with their objects, whichever locks are held |
| Service.RunWf | services/security_component_service/sa/sa_main/sec_comp_manager.cpp:65-498 | So in every reachable state |
| ServiceSafety.NoPermissionWithoutProcess | services/security_component_service/sa/sa_main/sec_comp_manager.cpp:227-249 | Over every run before exit: a token with a save count, a recorded or a held permission has a registered process, and every waiting component's process is registered |
| ServiceSafety.StepSafe | services/security_component_service/sa/sa_main/sec_comp_manager.cpp:227-249 | Kept by every step, dialog sections between the sections of a death included |
| ServiceSafety.StepRecorded | services/security_component_service/sa/sa_main/sec_comp_perm_manager.cpp:163-253 | Every step of the service keeps every held permission recorded |
| ServiceTasks.StepShapes | services/security_component_service/sa/sa_main/sec_comp_perm_manager.cpp:73-265 | Every step keeps each pending task in its kind's shape: the name letter for letter, the delay in milliseconds and the callback, a save task's name being its token's digits followed by a reading's |
| ServiceBackground.BackgroundLosesGrants | services/security_component_service/sa/sa_main/sec_comp_manager.cpp:203-249 | In such a run a token whose processes are all in the background has a revocation pending or holds nothing, with any number of processes sharing it |
| ServiceBackground.StepBackground | services/security_component_service/sa/sa_main/sec_comp_perm_manager.cpp:279-323 | A step keeps recorded permissions of background tokens under a pending revocation exactly when it records none for a token that is not covered: no process, one in the foreground that stays, or a revocation that no death section still cancels |
| ServiceBackground.BackgroundIffCovered | services/security_component_service/sa/sa_main/sec_comp_manager.cpp:203-249 | Over every run: so it is in every state exactly when no step recorded a permission for an uncovered token |
| ServiceBackground.DialogClosedInBackground | services/security_component_service/sa/sa_main/first_use_dialog.cpp:332-361 | A dialog closed after the revocation ran leaves a permission in the background with nothing to end it |
| ServiceRuns.WaitingIsReachable | services/security_component_service/sa/sa_main/first_use_dialog.cpp:425-572 | The state this starts from is reached from every fresh service, step by step |
| ServiceBackground.ForegroundAndBackground | services/security_component_service/sa/sa_main/sec_comp_manager.cpp:203-225 | The foreground cancels the token's revocation, the background makes one pending ten seconds away; besides that and the process's flag nothing changes |
| ServiceExit.ExitIsSafeAndSure | services/security_component_service/sa/sa_main/sec_comp_manager.cpp:251-344 | Over every run: once exiting every process's list is empty, then and later; with no process it is exiting or the exit task is pending, unless a caller stands between stopping that task and registering |
| ServiceExit.ExitTaskDecides | services/security_component_service/sa/sa_main/sec_comp_manager.cpp:196-275 | The exit task exits exactly when every process's list is empty, registered processes or not |
| ServiceExit.UnregisterStartsExit | services/security_component_service/sa/sa_main/sec_comp_manager.cpp:122-145 | Taking a component off the register leaves an exit pending, and takes exactly that id from its own process's list |
| ServiceExit.ExitIsWatched | services/security_component_service/sa/sa_main/sec_comp_manager.cpp:251-344 | Over every run: with no process an exit is pending or done in every state exactly when no pre-registration stopped the exit task while no process was registered |
| ServiceExit.StepWatched | services/security_component_service/sa/sa_main/sec_comp_manager.cpp:324-344 | Every step keeps that, except exactly such a pre-registration |
| ServiceExit.FirstPreRegistrationStopsExit | services/security_component_service/sa/sa_main/sec_comp_manager.cpp:324-344 | The first pre-registration of every fresh service is one: no process, no exit pending |
| ServiceDialog.SaveClickWithoutDialog | services/security_component_service/sa/sa_main/first_use_dialog.cpp:332-572 | Over every run: a save click without a dialog, of a token whose bit was not loaded, follows a set bit of that token, which follows a grant of that component after its dialog, which follows the dialog's insertion, each with its type |
| ServiceDialog.EveryGrantIsPaid | services/security_component_service/sa/sa_main/first_use_dialog.cpp:332-572 | Over every run and for every component: grants after dialogs never outnumber dialogs, and dialogs and clicks without one never outnumber accepted clicks |
| ServiceDialog.BitAgreesWithDialog | services/security_component_service/sa/sa_main/first_use_dialog.cpp:332-517 | Over every run: a set save bit comes from a dialog shown and granted for saving exactly when the component's type was save both when the dialog was shown and when its grant began; types that nothing changed in between always agree |
| ServiceDialog.RunKeepsBits | services/security_component_service/sa/sa_main/first_use_dialog.cpp:485-517 | Over every run loaded bits are never lost |
| ServiceDialog.StepLogs | services/security_component_service/sa/sa_main/first_use_dialog.cpp:332-572 | Every step logs exactly what an observer sees of it in the locks, the objects and the answers, so the log the results above speak of leaves nothing out and makes nothing up |
| ServiceRuns.LocationDialogSetsSaveBit | services/security_component_service/sa/sa_main/first_use_dialog.cpp:332-517 | From every fresh service: a location dialog alone sets the save bit, when the component is reported as a save button before the bit is set |
| ServiceMalicious.ListedCallsChangeNothing | services/security_component_service/sa/sa_main/sec_comp_manager.cpp:346-685 | While a non-root process is listed and does not really die: its registration, update or click changes nothing exactly when its check comes after the listing |
| ServiceMalicious.ListedSectionsAreOlder | services/security_component_service/sa/sa_main/sec_comp_manager.cpp:346-685 | A locked section of a listed process belongs to a call that was checked before the listing, and does what it does with an empty list |
| ServiceMalicious.CheckStopsBlocked | services/security_component_service/sa/sa_main/sec_comp_manager.cpp:346-685 | A check changes nothing exactly when its process is blocked |
| ServiceMalicious.SectionWasChecked | services/security_component_service/sa/sa_main/sec_comp_manager.cpp:346-685 | Over every run: each locked section follows a check of the same caller that was not blocked |
| ServiceMalicious.SectionsIgnoreList | services/security_component_service/sa/sa_main/sec_comp_manager.cpp:395-685 | Past its check a section does the same whoever is listed |
| ServiceOrigin.ObjectWasRegistered | services/security_component_service/sa/sa_main/sec_comp_manager.cpp:346-393 | Over every run: each stored object goes back to a registration that passed its checks, has the id handed out then, that caller as its owner, and is authorised exactly if that application was found to be |
| ServiceOrigin.ExcusedClickWasAuthorised | services/security_component_service/sa/sa_main/sec_comp_entity.h:60-73 | So an accepted click some check of which failed is one of a save component that the same process registered with an authorised application |
| ServiceMalicious.ListIsItsHistory | services/security_component_service/sa/sa_main/sec_comp_manager.cpp:227-498 | Over every run: the list and its counters are what the failures, resets and deaths of the run make of them |
| ServiceMalicious.ListedAfterFourFailures | services/security_component_service/sa/sa_main/sec_comp_malicious_apps.cpp:29-62 | In every reachable state of the service: listed exactly after four failures in a row with no real death since |
| ServiceRuns.ListedProcessUpdates | services/security_component_service/sa/sa_main/sec_comp_manager.cpp:395-438 | From every fresh service: an update that was checked before its process was listed still changes the component |
| ServiceClicks.PermissionFollowsClick | services/security_component_service/sa/sa_main/sec_comp_manager.cpp:600-685 | Over every run: a step that adds a permission or raises a save count is a grant step; it gives only its component's token what its type grants, and the component was accepted in a click of its own process with its grant in progress ever since |
| ServiceClicks.ClickGrantFollows | services/security_component_service/sa/sa_main/sec_comp_manager.cpp:614-685 | A click's own grant gives exactly the clicked type's permissions, under the one lock since the click |
| ServiceClicks.DialogGrantFollows | services/security_component_service/sa/sa_main/first_use_dialog.cpp:332-361 | A grant after a dialog gives the type stored when it begins; that is the clicked type exactly when the last report stored by then has it |
| ServiceRuns.CoveredSaveClickGivesLocation | services/security_component_service/sa/sa_main/first_use_dialog.cpp:332-361 | From every fresh service: a covered save click, reported as a location button while its dialog is open, gives both location permissions |
| ServiceClicks.StoredIsOneReport | services/security_component_service/sa/sa_main/sec_comp_manager.cpp:450-498 | Over every run: what is stored of a component is one report, moved at most once, and unchanged since the step that brought it |
| ServiceClicks.StepGivesNothing | services/security_component_service/sa/sa_main/sec_comp_manager.cpp:203-344 | No other step adds a held permission or raises any save count |
| ServiceSave.ServiceRunIsTimerRun | services/security_component_service/sa/sa_main/sec_comp_perm_manager.cpp:44-138 | Every run of the service is, in counts, queues and pending tasks, a run of the save timers; in order if no click's and dialog's grant of one token are both between posting and queueing |
| ServiceSave.SavePermissionEnds | services/security_component_service/sa/sa_main/sec_comp_perm_manager.cpp:44-138 | So in every reachable state after such a run the count is the length of the queue, and a token with no grant under way can save exactly while one of its revoke tasks is pending |
| ServiceRuns.OverlapKeepsSavePermission | services/security_component_service/sa/sa_main/sec_comp_perm_manager.cpp:73-86 | From every fresh service with a loaded save bit: a click's and a dialog's grant overlap, and the token can save with no grant under way and no task left |
| Manager.SecCompManager.IsScIdExist | services/security_component_service/sa/sa_main/sec_comp_manager.cpp:65-77 | The nested loops decide membership in the live ids |
| Manager.SecCompManager.CreateScId | services/security_component_service/sa/sa_main/sec_comp_manager.cpp:79-90 | The do-while search terminates at the first free id |
| Manager.SecCompManager.AddSecurityComponentToList | services/security_component_service/sa/sa_main/sec_comp_manager.cpp:92-120 | The new register, and the exit task stopped on success only |
| Manager.SecCompManager.DeleteSecurityComponentFromList | services/security_component_service/sa/sa_main/sec_comp_manager.cpp:122-145 | Erases the first match in the owner's list and starts the exit task, or changes nothing |
| Manager.SecCompManager.GetSecurityComponentFromList | services/security_component_service/sa/sa_main/sec_comp_manager.cpp:176-194 | Finds a component exactly when its process lists it |
| Manager.SecCompManager.IsCompExist | services/security_component_service/sa/sa_main/sec_comp_manager.cpp:196-201 | True exactly when some process's list is not empty |
| Manager.SecCompManager.NotifyProcessForeground | services/security_component_service/sa/sa_main/sec_comp_manager.cpp:203-212 | Is the machine's foreground step |
| Manager.SecCompManager.NotifyProcessBackground | services/security_component_service/sa/sa_main/sec_comp_manager.cpp:214-225 | Is the machine's background step |
| Manager.SecCompManager.NotifyProcessDied | services/security_component_service/sa/sa_main/sec_comp_manager.cpp:227-249 | Removes the process, its waits, permissions and save counts in one |
| Calls.DeathIsItsSteps | services/security_component_service/sa/sa_main/sec_comp_manager.cpp:227-249 | That is the machine's sections of a death with nothing between them |
| Calls.DeathLeavesNothing | services/security_component_service/sa/sa_main/sec_comp_manager.cpp:227-249 | After a death the token holds nothing, nothing is recorded, counted or pending for it, process and waits are gone, and the exit task is pending; only a cached process stays listed |
| Manager.SecCompManager.ExitSaProcess | services/security_component_service/sa/sa_main/sec_comp_manager.cpp:251-275 | Exits exactly when every process's list is empty |
| Manager.SecCompManager.ExitWhenAppMgrDied | services/security_component_service/sa/sa_main/sec_comp_manager.cpp:277-302 | The loop revokes every process in some order, empties the register and exits |
| Calls.AppMgrIsItsSteps | services/security_component_service/sa/sa_main/sec_comp_manager.cpp:277-302 | That is the machine's sections for every process of the walk in turn, with nothing between them |
| Calls.AppMgrLeavesNothing | services/security_component_service/sa/sa_main/sec_comp_manager.cpp:277-302 | After it the service is exiting with an empty register, no process's token holds, counts or has anything pending, and every other token keeps what it had |
| Manager.SecCompManager.AddSecurityComponentProcess | services/security_component_service/sa/sa_main/sec_comp_manager.cpp:324-344 | Stops the exit and registers the process, or says that the service does not exist |
| Calls.PreRegisterIsItsSteps | services/security_component_service/sa/sa_main/sec_comp_manager.cpp:324-344 | That is the machine's stop and commit with nothing between them |
| Calls.PreRegisterOutcome | services/security_component_service/sa/sa_main/sec_comp_manager.cpp:324-344 | Exactly the exit tasks go, and a process that was not registered is, in the foreground, without components, under its caller's token |
| Manager.SecCompManager.RegisterSecurityComponent | services/security_component_service/sa/sa_main/sec_comp_manager.cpp:346-393 | Registers under a fresh id and hands it back, or stops at the first failed check, with the result code of each outcome |
| Calls.RegisterSucceeds | services/security_component_service/sa/sa_main/sec_comp_manager.cpp:346-393 | That code is SC_OK exactly when the component is in the register afterwards; its object is then exactly the reported one with the authorisation its application was found to have, and the exit is taken back; otherwise the register is as before |
| Calls.RegisterAnswers | services/security_component_service/sa/sa_main/sec_comp_manager.cpp:346-393 | The first check that fails decides the answer, a 502nd component included, and what it counts for |
| Calls.RegisterIsItsSteps | services/security_component_service/sa/sa_main/sec_comp_manager.cpp:346-393 | That is the machine's checks and id, then its place in the register, with nothing between them |
| Manager.SecCompManager.UpdateSecurityComponent | services/security_component_service/sa/sa_main/sec_comp_manager.cpp:395-438 | Updates the component or stops at the first failed check, with the result code of each outcome |
| Calls.UpdateIsItsSteps | services/security_component_service/sa/sa_main/sec_comp_manager.cpp:395-438 | That is the machine's check and locked section with nothing between them |
| Calls.UpdateSucceeds | services/security_component_service/sa/sa_main/sec_comp_manager.cpp:395-438 | That code is SC_OK only with exactly the report stored; otherwise no component changes |
| Calls.UpdateAnswers | services/security_component_service/sa/sa_main/sec_comp_manager.cpp:395-438 | The first check that fails decides the answer, and what it counts for |
| Manager.SecCompManager.UnregisterSecurityComponent | services/security_component_service/sa/sa_main/sec_comp_manager.cpp:440-448 | Is the machine's unregistration, with the result code of each outcome |
| Calls.UnregisterAnswers | services/security_component_service/sa/sa_main/sec_comp_manager.cpp:440-448 | Only the process that lists a component can take it off; a negative id is invalid |
| Manager.SecCompManager.CheckClickSecurityComponentInfo | services/security_component_service/sa/sa_main/sec_comp_manager.cpp:450-498 | Stores the report, or stops with the specified verdict and failure count |
| Manager.SecCompManager.CheckComponentInfoValid | services/security_component_service/sa/sa_main/sec_comp_manager.cpp:500-514 | An invalid report is refused or excused |
| Manager.SecCompManager.CheckRectInfo | services/security_component_service/sa/sa_main/sec_comp_manager.cpp:516-539 | Reads the fold offset first; a bad rectangle is refused or excused |
| Manager.SecCompManager.GetFoldOffsetY | services/security_component_service/sa/sa_main/sec_comp_manager.cpp:577-598 | Reads the offset once, and only when there is a crossing state |
| Manager.SecCompManager.StartDialog | services/security_component_service/sa/sa_main/sec_comp_manager.cpp:614-642 | Dialog first; only a click that needs none is granted |
| Manager.SecCompManager.ReportSecurityComponentClickEvent | services/security_component_service/sa/sa_main/sec_comp_manager.cpp:644-685 | The whole click on objects updated in place equals the specified click, with the result code of each outcome |
| Calls.ClickIsItsSteps | services/security_component_service/sa/sa_main/sec_comp_manager.cpp:614-685 | That is the machine's check, click, dialog and grant sections with nothing between them |
| Calls.ClickOutcome | services/security_component_service/sa/sa_main/sec_comp_manager.cpp:614-685 | An acceptable location click only opens a dialog; save is granted at once exactly with the first-use bit; paste is granted at once; the result code tells which |
| Calls.ClickRefused | services/security_component_service/sa/sa_main/sec_comp_manager.cpp:600-685 | What the application of any click that is not acceptable is told, from the number of remote objects to the event; nothing is granted and no dialog shown |
| Calls.ClickCountsFailures | services/security_component_service/sa/sa_main/sec_comp_manager.cpp:481-685 | What any click does to the malicious list, by conditions on what was reported and answered |
| AppState.ForegroundIsLastNotice | services/security_component_service/sa/sa_main/app_state_observer.cpp:36-122 | Without placeholders, over every history of notices: foreground exactly when the last notice about the process said so, and asking changes nothing |
| AppState.ClaimedPlaceholderOutlivesBackground | services/security_component_service/sa/sa_main/app_state_observer.cpp:36-96 | A placeholder claimed beside an exact entry leaves the process foreground after its background notice |
| AppState.AccurateUnlessClaimed | services/security_component_service/sa/sa_main/app_state_observer.cpp:36-122 | Over every history of notices and questions, placeholders included: the list holds each known process once or not at all as its last notice said, all along, exactly when no question claims a placeholder |
| AppState.AnswerIsLastNotice | services/security_component_service/sa/sa_main/app_state_observer.cpp:36-50 | While that is so, a question is answered by the last notice and changes nothing exactly if it claims nothing |
| AppState.AppStateObserver.IsProcessForeground | services/security_component_service/sa/sa_main/app_state_observer.cpp:36-50 | The loop finds the process or claims the first placeholder of its user |
| AppState.AppStateObserver.AddProcessToForegroundSet | services/security_component_service/sa/sa_main/app_state_observer.cpp:52-65 | Appends unless already listed |
| AppState.AppStateObserver.RemoveProcessFromForegroundSet | services/security_component_service/sa/sa_main/app_state_observer.cpp:87-96 | Erases the first entry of the process |
| ScreenCheck.WatchScreenExact | services/security_component_service/sa/sa_main/sec_comp_info_helper.cpp:141-165 | For radii up to half the shorter side, the four corner centres pass exactly when every point of the rounded rectangle is within the radius, a tenth of its diagonal (at least 1) and 0.001 of the screen's centre |
| ScreenCheck.RectCheckExact | services/security_component_service/sa/sa_main/sec_comp_info_helper.cpp:167-247 | A rectangle passes exactly when its display is known, it is not empty, and every point is on the screen, give or take a tenth of its side (at least 1), and in the window, give or take the scale and 1; only the first two failures come without a message |
| RoundedRect.CornerDiscInside | services/security_component_service/sa/sa_main/sec_comp_info_helper.cpp:141-165 | A corner's disc lies inside the rounded rectangle, whatever the other radii |
| RoundedRect.Triangle | services/security_component_service/sa/sa_main/sec_comp_info_helper.cpp:136-139 | The triangle inequality on distances given by their squares |
| WindowCover.OverlapExact | services/security_component_service/sa/sa_main/window_info_helper.cpp:103-143 | For every window: the test is right about every component with fitting radii exactly when the window's right and bottom edges are not negative |
| WindowCover.OverlapDecides | services/security_component_service/sa/sa_main/window_info_helper.cpp:103-143 | Yes means the closed window and the closed rounded shape share a point; no means none, or only points within 1.01 of one corner's arc |
| WindowCover.TouchingIsApart | services/security_component_service/sa/sa_main/window_info_helper.cpp:103-143 | Rectangles that only touch do not overlap |
| WindowCover.WrappedEdgeMisjudged | services/security_component_service/sa/sa_main/window_info_helper.cpp:119-140 | A negative edge wraps in unsigned arithmetic, and the gap beside an arc counts as covered |
| WindowScan.IsOtherWindowCoverComp | services/security_component_service/sa/sa_main/window_info_helper.cpp:145-167 | Clear exactly when the component's layer is known and every collected layer is below it |
| WindowScan.CheckOtherWindowCoverComp | services/security_component_service/sa/sa_main/window_info_helper.cpp:169-213 | An id with bit 30 is always clear, any other is refused without an answer; otherwise which lists count as clear, and what that means: nothing at the component's layer or above covers it, or something does |
| WindowScan.PassedIds | services/security_component_service/sa/sa_main/window_info_helper.cpp:172-174 | By arithmetic: the ids that are passed over are those 2^30 or more above a multiple of 2^31 |
| WindowScan.ScaledSides | services/security_component_service/sa/sa_main/window_info_helper.cpp:193-199 | A scaled window keeps its corner, its sides are scaled and rounded down; scale 0 stands for none |
| WindowScan.ScanIsOnTop | services/security_component_service/sa/sa_main/window_info_helper.cpp:145-213 | With one window of the component and any layers: clear exactly when its layer, as a signed number, is known and above every other overlapping window's |
| WindowScan.ScanMisses | services/security_component_service/sa/sa_main/window_info_helper.cpp:145-213 | When that differs from every other overlapping window being strictly lower, in both directions: exactly the cases with a layer of 2^31 or more |
| WindowScan.ScanIsSimple | services/security_component_service/sa/sa_main/window_info_helper.cpp:145-213 | Below 2^31 the two are the same |
| WindowScan.OrderDoesNotMatter | services/security_component_service/sa/sa_main/window_info_helper.cpp:169-213 | With one window of the component, the same answer for every permutation of the list |
| WindowScan.OrderMattersOnlyBetweenLayers | services/security_component_service/sa/sa_main/window_info_helper.cpp:169-213 | However often the component's window is listed: every order gives one answer exactly when all or none of its entries are on top |
| WindowScan.ClearIsClear | services/security_component_service/sa/sa_main/window_info_helper.cpp:103-213 | A clear answer means no other window at the component's layer or above shares more of the rounded component than what lies along one corner's arc |
| WindowScan.RefusalIsCovered | services/security_component_service/sa/sa_main/window_info_helper.cpp:103-213 | A refusal means such a window shares a point with it |
| WindowScan.ListedTwiceDependsOnOrder | services/security_component_service/sa/sa_main/window_info_helper.cpp:169-213 | Listed twice, the component's window makes the order matter |
| WindowScan.HugeLayerIsMissed | services/security_component_service/sa/sa_main/window_info_helper.cpp:169-213 | A layer of 2^31 counts as below every component |
| ClickWire.ClickRoundTrip | frameworks/inner_api/security_component/src/sec_comp_client.cpp:310-350 | For every request and every behaviour of the service: the client returns the service's result and message exactly for requests that fit; every other one ends as the parcel error with the message unchanged |
| ClickWire.RequestBack | services/security_component_service/sa/sa_main/sec_comp_service.cpp:522-577 | The service decodes exactly what was encoded and consumes exactly those bytes; a negative id is refused |
| ClickWire.ClickBack | frameworks/security_component/src/sec_comp_click_event_parcel.cpp:71-225 | A click event with up to 0x1000 bytes of extra data comes back as it was written |
| ClickWire.DecodedIsSound | services/security_component_service/sa/sa_main/sec_comp_service.cpp:522-577 | Whatever the bytes, an accepted request has a possible id, a known event and bounded extra data |
| ClickWire.ReplyBack | services/security_component_service/sa/sa_main/sec_comp_service.cpp:501-520 | The reply is read back as written |
| ClickWire.RequestLayout | frameworks/inner_api/security_component/src/sec_comp_client.cpp:310-350 | Byte by byte where each part of a request stands: id, texts with lengths and padding, flag, event by its number, extra data, all lowest byte first |
| ClickWire.ReplyLayout | services/security_component_service/sa/sa_main/sec_comp_service.cpp:501-520 | The same of a reply; an error reply is its code alone |
| ClickWire.ErrorReplyHasNoMessage | services/security_component_service/sa/sa_main/sec_comp_service.cpp:199-212 | An error reply has no message, so the client reports the parcel error instead of the service's own code |
| ClickPath.SecCompRawdata.RawDataCpy | frameworks/common/include/sec_comp_rawdata.h:37-53 | Copies exactly sizes above 0 and below 4096 |
| ClickPath.WriteMessageParcel | frameworks/enhance_adapter/src/sec_comp_enhance_adapter.cpp:179-200 | An empty parcel is left out; any other is copied or refused by size |
| ClickPath.ReadMessageParcel | frameworks/enhance_adapter/src/sec_comp_enhance_adapter.cpp:202-218 | Appends the bytes, padded; nothing to read is a failure |
| ClickPath.SecCompClickEventParcel.Marshalling | frameworks/security_component/src/sec_comp_click_event_parcel.cpp:71-110 | Writes type, event and extra data in order; an unknown type is refused |
| ClickPath.SecCompClickEventParcel.MarshallingPointEvent | frameworks/security_component/src/sec_comp_click_event_parcel.cpp:28-41 | Writes both coordinates and the time |
| ClickPath.SecCompClickEventParcel.MarshallingKeyEvent | frameworks/security_component/src/sec_comp_click_event_parcel.cpp:43-55 | Writes time and key |
| ClickPath.SecCompClickEventParcel.MarshallingAccessibilityEvent | frameworks/security_component/src/sec_comp_click_event_parcel.cpp:57-69 | Writes time and component |
| ClickPath.UnmarshallingEvent | frameworks/security_component/src/sec_comp_click_event_parcel.cpp:154-178 | Reads the fields of the given type |
| ClickPath.Unmarshalling | frameworks/security_component/src/sec_comp_click_event_parcel.cpp:180-225 | Reads an event and its extra data up to the limit |
| ClickPath.ClientReportWriteToRawdata | frameworks/inner_api/security_component/src/sec_comp_client.cpp:273-308 | Succeeds exactly for a known event and a size that fits, with exactly the encoded bytes |
| ClickPath.ClientReportSecurityComponentClickEvent | frameworks/inner_api/security_component/src/sec_comp_client.cpp:310-350 | The client's steps equal the specified trip |
| ClickPath.WriteError | services/security_component_service/sa/sa_main/sec_comp_service.cpp:199-212 | Writes the code alone |
| ClickPath.ServiceReportWriteToRawdata | services/security_component_service/sa/sa_main/sec_comp_service.cpp:501-520 | Writes code and message, or fails by size |
| ClickPath.ServiceReportSecurityComponentClickEvent | services/security_component_service/sa/sa_main/sec_comp_service.cpp:522-577 | Decodes, answers and falls back to an error reply, for every input |
| ClientProxy.ProxyIsWatched | frameworks/inner_api/security_component/src/sec_comp_client.cpp:533-609 | In every interleaving the proxy is set exactly when its death observer is, and that observer is registered on it or its death is on the way |
| ClientProxy.LoadedAfterOwnReset | frameworks/inner_api/security_component/src/sec_comp_client.cpp:448-609 | An object installed through the loader was delivered after the installing call's own reset, with no other reset between |
| ClientProxy.StepLogs | frameworks/inner_api/security_component/src/sec_comp_client.cpp:448-609 | Every step logs exactly what the client's state before and after it shows |
| ClientProxy.AtMostTwoRequests | frameworks/inner_api/security_component/src/sec_comp_client.cpp:134-160 | Over every run a registration sends at most two requests, the second only after one of the four results that say the service is gone |
| ClientProxy.RegistrationGoesOn | frameworks/inner_api/security_component/src/sec_comp_client.cpp:134-160 | Every step of a registration: after a first result that says the service is gone it waits for the death notice and, when that is seen, gets the proxy again and sends once more; anything else ends it |
| ClientProxy.NoticesAreOwn | frameworks/inner_api/security_component/src/sec_comp_client.cpp:533-586 | Over every run: every death notice handled came from the proxy's own observer exactly when none came from an observer whose cast had failed |
| ClientProxy.OwnNoticeDropsTheDead | frameworks/inner_api/security_component/src/sec_comp_client.cpp:533-554 | A notice clears the proxy; one from the proxy's own observer clears the proxy of the object that died |
| ClientProxy.NoticeIsAboutProxy | frameworks/inner_api/security_component/src/sec_comp_client.cpp:533-586 | In such a run the next notice is about the installed proxy exactly when its observer's cast did not fail |
| ClientProxy.FailedCastDropsLiveProxy | frameworks/inner_api/security_component/src/sec_comp_client.cpp:556-586 | A failed cast leaves an observer behind whose notice later drops a live proxy |
| ClientProxy.StepWatched | frameworks/inner_api/security_component/src/sec_comp_client.cpp:533-609 | Kept by every step of every thread |
| ClientProxy.WaitEndsWithFirstObject | frameworks/inner_api/security_component/src/sec_comp_client.cpp:487-523 | The wait keeps exactly the first object delivered, and is ready exactly when there was one |
| ClientProxy.SecCompClient.InstallProxyLocked | frameworks/inner_api/security_component/src/sec_comp_client.cpp:556-586 | Is the machine's installation, with every early return |
| ClientProxy.SecCompClient.StartLoadSecCompSa | frameworks/inner_api/security_component/src/sec_comp_client.cpp:448-475 | Resets flag and object before asking |
| ClientProxy.SecCompClient.WaitForSecCompSa | frameworks/inner_api/security_component/src/sec_comp_client.cpp:487-498 | Takes callbacks until one delivers an object |
| ClientProxy.SecCompClient.FinishStartSASuccess | frameworks/inner_api/security_component/src/sec_comp_client.cpp:500-513 | Sets object and flag and clears the reload flag |
| ClientProxy.SecCompClient.FinishStartSAFail | frameworks/inner_api/security_component/src/sec_comp_client.cpp:515-523 | Clears object and flag |
| ClientProxy.SecCompClient.GetProxy | frameworks/inner_api/security_component/src/sec_comp_client.cpp:588-609 | A proxy that is set is returned; without one exactly the object the call goes for, if it can be installed, and otherwise nothing |
| ClientProxy.GetProxyMeaning | frameworks/inner_api/security_component/src/sec_comp_client.cpp:588-609 | A caller without a proxy gets exactly the object that is registered, else the first one delivered by a load it may ask for, if that is installed fine; it is then watched, nothing stays loaded; with a proxy nothing changes |
| ClientProxy.GetProxyIsItsSteps | frameworks/inner_api/security_component/src/sec_comp_client.cpp:588-609 | That call is the machine's lookup, reset, request, callbacks, taking and installation with nothing between them |
| ClientProxy.SecCompClient.OnRemoteDiedHandle | frameworks/inner_api/security_component/src/sec_comp_client.cpp:533-554 | Unregisters the observer, clears proxy and flags, whichever object died |
| ClientProxy.DeathIsItsSteps | frameworks/inner_api/security_component/src/sec_comp_client.cpp:533-554 | That is the machine's three sections of a notice with nothing between them |
| ComponentJson.ComponentRoundTrip | frameworks/security_component/src/sec_comp_base.cpp:471-593 | Writing and reading restores every serialised field exactly for a component in range, and refuses any other |
| ComponentJson.AcceptedIsInRange | frameworks/security_component/src/sec_comp_base.cpp:471-503 | Whatever is accepted is in range |
| ComponentJson.ReadingIsStable | frameworks/security_component/src/sec_comp_base.cpp:471-593 | Reading, writing and reading again is reading |
| ComponentJson.StyleBack | frameworks/security_component/src/sec_comp_base.cpp:632-668 | Text, icon and background are accepted exactly in the button's ranges, listed by number; a clicked picture icon only for a system application |
| ComponentJson.WrittenTags | frameworks/security_component/src/sec_comp_base.cpp:505-593 | Each field stands under its own tag, types and crossing states by their numbers |
| ComponentJson.ReadTags | frameworks/security_component/src/sec_comp_base.cpp:85-503 | Each field that is read stands under its own tag with its own kind of value; an integer is no length, and a number no flag |
| Json.TruncatedTowardsZero | frameworks/security_component/src/sec_comp_base.cpp:632-668 | A floating-point number read as an integer is rounded towards zero, on both sides of it |
| ComponentJson.SecCompBase.ParseFromJson | frameworks/security_component/src/sec_comp_base.cpp:471-503 | Assigning field by field gives exactly the parsed value, or fails |
| ComponentJson.SecCompBase.ParseShapeFields | frameworks/security_component/src/sec_comp_base.cpp:238-268 | The corner radii are read with the size and copied into the rectangle |
| ComponentJson.SecCompBase.WriteToJson | frameworks/security_component/src/sec_comp_base.cpp:505-593 | Fills the output tag by tag |

## Left out

- SaveTimers.SavePermissionLastsAsLongAsAGrant: asks that each token's names are queued in posting order, because the code does not ensure it; InStepIffInOrder says that queue and tasks stay in line in no other run.
- ServiceSave.ServiceRunIsTimerRun: asks that the readings in save names rise and keep one width, as the timers do, and orders the queue only without overlapping grants.
- ServiceBackground.BackgroundLosesGrants: asks that no step records a permission for an uncovered token, because a dialog can close in the background; BackgroundIffCovered says that recorded permissions are under control in no other run.
- ServiceExit.ExitIsSafeAndSure: the empty register promises a pending exit only while no pre-registration stands between its two sections, because the first section stops the exit task outside the lock; ExitIsWatched is the exact condition without that excuse.
- WindowScan.ScanIsSimple: asks for one window of the component and layers below 2^31; ScanMisses and OrderMattersOnlyBetweenLayers say exactly what happens without these.
- WindowScan.ClearIsClear: asks for fitting radii and far edges that are not negative, because OverlapExact shows the overlap test wrong otherwise.
- WindowScan.RefusalIsCovered: asks for the same, and for one window of the component.
- AppState.ForegroundIsLastNotice: says nothing about lists with placeholders, because a claimed one outlives the background notice; AccurateUnlessClaimed is the exact condition.
- ScreenCheck.WatchScreenExact: asks for corner radii between 0 and half the shorter side; for others no rounded shape is defined.
- Entity: the colour, transparency, padding and size checks of a button are one input, whether the report is valid.
- Manager.SecCompManager.ReportSecurityComponentClickEvent: the answers of the window check, the rectangle check and the enhanced checks are inputs here; ScreenCheck and WindowScan prove the first two on their own.
- Event handler missing before initialisation, and null entries in component lists: every list holds real components.
- IPC transport, stubs, system-ability manager, vendor enhance handlers and toasts: only their results are inputs.
- HiSysEvent, logs, traces, dumps, bundle names and the text of error messages: only whether a message is empty is kept.
- Parcel: the primitives of c_utils (little-endian words, padding to four bytes, length-prefixed strings with a closing zero, a flag before a parcelable) are modelled from their published behaviour; the Parcel class itself is not part of this repository. Its capacity limit is above the 4096-byte limit and gives the same result.
- Requests other than clicks on the wire: they repeat the same reads and writes with fewer fields.
- JSON text and files: JSON is a value tree that tells integers from floating-point numbers; only for the first-use record is the text written out, for its size.
- Floating-point rounding, not-a-number and infinities: numbers are reals, 0.1 is exact, and scaled window sizes are rounded down.
- CompareComponentBasicInfo, AdjustSecCompRect, GetWindowScale and the retry loop around it.
- The first contents of the foreground list and the link between that list and the register's foreground flags.
- Singletons, DIALOG_TDD_MACRO builds, mocks other than the token kit, and fuzzers.
