# Input-method service: a verified model of the session engine

This project models, in Dafny 4.11, the parts of the OpenHarmony input-method service whose
correctness spans several functions: who is bound to which input method (IME), how the real IME is
started and stopped, the push-to-talk gesture, freezing and delayed stopping, the coalescing of
switch and restart requests, the switch queue, proxy IMEs, and the data cores around them (subtype
labels, the IME-info cache, the fault-report limiter, UTF-16 truncation).

Every protocol appears twice. A pure state machine (`State`, `Step`, `Enabled`, `Next`, `Run`) says
what one step does, and lemmas state what holds in every state of every run. Beside it stands code
in the source's own form: classes whose methods update fields in place, loops over maps in any
order. Each such method is proved to take the step of the state machine that it stands for, so the
lemmas about runs are about the code.

| file | what it holds |
|---|---|
| `ClientBinding.dfy`, `ClientBindingProofs.dfy`, `SessionChanges.dfy`, `BindOverlap.dfy`, `PerUserSession.dfy` | client groups, the binding of clients to IMEs, what every run keeps, what every step changes, and binds that overlap |
| `ImeLifecycle.dfy`, `ImeStartStop.dfy` | the status table, starting, stopping and force-stopping the real IME, hand-over and death, all threads interleaved |
| `PushToTalk.dfy` | the key controller and the gesture manager on their task queue |
| `ImeState.dfy` | call brackets from many threads against the handler's thread, freeze reports, delayed stop |
| `SwitchRequests.dfy`, `RestartTasks.dfy`, `SwitchQueue.dfy` | request coalescing and the switch queue |
| `ProxyImes.dfy` | per-display lists of proxy IMEs |
| `SubtypeLabels.dfy`, `ImeInfoCache.dfy`, `FaultReporter.dfy`, `Utf16.dfy` | batched label lookup, the IME-info cache, fault reports, code-point truncation |

`dafny verify dfyconfig.toml` checks the whole project.

Main results:

* With one client object per process and calls that do not overlap, every state of every run has at
  most one bound client per group, at most one group with a client bound to a real IME, and all
  clients bound to one IME process in one group. `SafeIffOnePerProcess` shows that one object per
  process is needed: two client objects of one process have a run that ends with two bound clients in
  a group. For calls that overlap, `BindOverlap.SafeIffNoCollision` gives the exact condition: no
  client is placed while another group holds its IME; between its clean-ups and its placing a bind
  loses that only to the placing of a rival bind (`ClearStepIff`).
* `SessionChanges.StepChanges` says for every step who leaves, who joins, and what becomes of every other
  client; a binding ends only with its client's registration or by binding the client anew.
* Starting and stopping the real IME, with hand-over, death and stops of other threads interleaved lock
  section by lock section: statuses only advance and a record is taken over at most once, in every run.
  A start that reports success means that its IME became READY (or was), exactly as long as no earlier
  hand-over was about to raise the started flag when it was cleared (`StartedMeansReadyIff`). A stop
  that reports success leaves no record, exactly as long as no notice of an earlier death was still to
  come when its wait began (`StopMeansGoneIff`), but for a death whose record was replaced before its
  removal (`SettledIff`); a switch then connects only records made during the switch, each for its own
  IME. A start of an IME that is READY leaves it alone, whatever other threads do, and without other
  threads every outcome of a start and a stop is given (`ImeStartStop.RealIme.StartIme`).
* With taking and running a delayed task apart from the brackets and their single effects: the last
  freeze report agrees with the flag whenever nothing is under way, exactly unless a taken report was
  overtaken since the IME was last frozen (`ImeState.FreezeReportsSettleIff`); the delayed stop runs
  only for a task taken after its whole delay (`StopNeedsFullFreeze`), and finds the IME frozen all the
  time unless the task outruns an unfreezing (`TimelyIff`, `StopFindsFrozen`).
* With package changes, looks, questions and stores as separate steps of three threads: from agreement
  the cache agrees with the package manager about a bundle whenever nothing is on its way, as long as no
  step loses the bundle; after one that does it is wrong until the bundle changes or its user is loaded
  (`ImeInfoCache.SettlesIff`, `CacheAgreesWhenQuiet`, `LostUntilRenewed`).
* Voice input starts only after space was held alone for the configured delay with the same client
  (`VoiceNeedsFullHold`), does start then (`HoldStartsVoice`), and lasts until space comes up or another
  key moves (`VoiceLastsUntilKey`).
* The IME is in use exactly if something began its use and nothing ended it since (`ImeState.InUseIff`).
* Batched key presses land where single presses would, exactly as long as 32-bit arithmetic does not
  show (`NextIndexIsExactIff`, `PressesAreConserved`).

Properties that do not hold as one might expect, each with its exact condition and an input that shows it:

* `ImeState.OverlapFreezesDuringCall`: with two overlapping calls the IME is frozen during one of
  them; `UnfrozenIff` says exactly which step does that.
* `BindOverlap.OverlapBreaksSafety`: two binds whose clean-ups come before either marking leave two
  groups bound to the real IME.
* `ImeState.LateReportExists`, `LateStopExists`: a task that the handler's thread has taken cannot be
  taken back; it reports a used IME frozen, or stops it.
* `ImeLifecycle.LateFlagExists`, `LateNoticeExists`, `MissedRemovalExists`: runs in which a start
  reports success with its record STARTING, and a stop with the record still there. `CoredIff`, `MisdirectedExists`: a hand-over
  that filled a record removed since makes its successor READY without a core, and nothing else does.
* `RestartTasks.QueuedTasksAreUnbounded`: the limit of two on the counter does not limit the tasks.
  `TasksBoundedIff`: a run keeps at most k tasks exactly if no request finds the counter reset while k
  tasks are still out; for k = 1, one task at most unless that happens with a task out.
  `CoveredIff`: a positive counter keeps a task exactly as long as the handler does not refuse the
  only task when it re-posts itself for an attach; after that (`StrandedForever`) no request is served.
  `GivingUpLoses`: a request ends without an attempt when the IME cannot be started, or when an attach
  is under way during the first scene-board start.
* `SwitchQueue.InvIff`, `OrderIff`: switches run one at a time in push order exactly as long as nobody
  starts out of turn; distinct entries without expired waits ensure it (`ConditionsGiveTurns`).
* `SwitchRequests.InvIff`, `LostPostStrandsForever`: a switch task that could not be posted leaves the
  executing flag set, and no later press is ever served.
* `ImeInfoCache.Loses` lists what leaves the cache wrong: an "added" event for a bundle that is no IME
  but is cached (`MissedEventExists`) or about to be; a removal that is looked at while the work thread
  has yet to store the bundle (`OvertakenRemovalExists`, `OvertakenLoadExists`); and a question to the
  package manager that fails with nothing following it (`FailedQuestionExists`).
  `StoreBeforeLoadHidesOthers`: a bundle stored for a user that is not loaded makes loading a no-op, and
  the user's other IMEs stay missing.
* `FaultReporter.ConservesIffNoWrap`, `Utf16.TruncatesIff`, `Utf16.CountsAllIff`: the 32-bit counter and
  the 32-bit length are where the code departs from its promise.

Calls into other services (the IME, the client, accounts, bundles, settings, the ability manager, the
clock) are inputs: their answers are parameters or fields of a step.

## Model

| member | source | states |
|---|---|---|
| `ClientBindingProofs.EveryRunIsSafe` | services/src/peruser_session.cpp:835-961 | for one client object per process, every state of every run has one binding per group, real bindings in one group, each IME process in one group, group ids that match, and a registered or null current client |
| `ClientBindingProofs.SafeIffOnePerProcess` | services/src/peruser_session.cpp:1518-1550 | all runs over a set of clients are safe if and only if no two of them share a process |
| `ClientBindingProofs.SharedProcessBreaksSafety` | services/src/peruser_session.cpp:1518-1550 | two client objects of one process have a run that leaves both bound in one group, because replacement compares pids |
| `ClientBindingProofs.LookupsAreDeterministic` | services/src/peruser_session.cpp:1153-1205 | in a safe state the three lookups by binding have one possible answer, so map order cannot be observed |
| `ClientBindingProofs.InvIsSafe` | services/src/peruser_session.cpp:835-961 | the inductive invariant (only the current client, or with none current the inactive one, is bound) implies safety |
| `ClientBindingProofs.NextKeepsInv` | services/src/peruser_session.cpp:576-690 | every attach, release, focus, hide, death and re-bind step keeps the invariant and registers nobody outside the known clients |
| `ClientBindingProofs.RunKeepsInv` | services/src/peruser_session.cpp:576-690 | the invariant holds in every state of every run from the empty session |
| `ClientBindingProofs.BindKeepsInv` | services/src/peruser_session.cpp:835-961 | binding a client to any IME, with both clean-ups in other groups, keeps the invariant |
| `ClientBindingProofs.ReplaceCurrentRemoves` | services/src/peruser_session.cpp:1518-1550 | replacing the current client unregisters exactly the previous current and inactive clients and nobody else |
| `ClientBindingProofs.ReplaceLeavesOneBinding` | services/src/peruser_session.cpp:895-899 | after marking and replacing, the group's one binding is the new client's to the given IME |
| `ClientBindingProofs.PreemptClearsOthers` | services/src/peruser_session.cpp:902-910 | after the clean-up no client outside the new group is bound to the IME process |
| `ClientBindingProofs.PreemptClearsOtherReal` | services/src/peruser_session.cpp:912-920 | after the clean-up no client outside the new group is bound to a real IME |
| `ClientBindingProofs.PreemptShrinks` | services/src/peruser_session.cpp:932-961 | the clean-up leaves the new group untouched, adds no binding and registers nobody |
| `ClientBindingProofs.OnlyPrepareRegisters` | services/src/client_group.cpp:32-69 | every step but attaching leaves no client in a group it was not in, and no changed host pid |
| `ClientBindingProofs.EveryClientInOneGroup` | services/src/peruser_session.cpp:922-930 | if no client is hosted by a known process, in every state of every run each client is registered in one group only |
| `ClientBindingProofs.FoundIs` | services/src/peruser_session.cpp:1223-1241 | what the search by own or host pid may return: none if and only if no client is of the process or hosted by it, and a hosted one only where no client of the process is |
| `SessionChanges.StepChanges` | services/src/peruser_session.cpp:576-690 | for every step and every client: exactly who is unregistered and who joins, what every field of the records of the others becomes, and where the pointers go |
| `SessionChanges.BindChanges` | services/src/peruser_session.cpp:835-961 | after a bind exactly the other holders of the IME, or of a real one, are gone from other groups, and the clients the pointers named from the group; the client is current, shown as asked, active and bound |
| `SessionChanges.ClearingChanges` | services/src/peruser_session.cpp:902-920 | the two clean-ups take exactly the holders of the IME, and of a real one, out of the other groups |
| `SessionChanges.AttachingAgainKeepsBindings` | services/src/client_group.cpp:32-69 | attaching again in the group of the registration leaves every binding as it was |
| `SessionChanges.BindingsEndOnlyBy` | services/src/peruser_session.cpp:835-961 | a binding ends only with its client's registration, or by binding the client to another IME |
| `SessionChanges.NewGroupIsBare` | services/src/peruser_session.cpp:107-126 | only attaching creates a group, with no pointers set |
| `BindOverlap.BindIsItsParts` | services/src/peruser_session.cpp:835-900 | a bind with nothing in between is its clean-ups followed by marking and replacing |
| `BindOverlap.PlacedIsSafeIff` | services/src/peruser_session.cpp:892-898 | marking and replacing keeps the session safe if and only if no other group holds the IME, or a real one, at that moment |
| `BindOverlap.SafeStepIff` | services/src/peruser_session.cpp:892-898 | the same over all steps of overlapping calls, with evictions of clients found at any earlier time |
| `BindOverlap.SafeIffNoCollision` | services/src/peruser_session.cpp:835-961 | a run of overlapping calls is safe in every state if and only if no client is placed while another group holds its IME |
| `BindOverlap.CleanUpsClear` | services/src/peruser_session.cpp:902-920 | after the two clean-ups no other group holds the IME |
| `BindOverlap.ClearStepIff` | services/src/peruser_session.cpp:892-898 | a step takes that away if and only if it places a client of another group for the same process, or for a real IME where this bind is for one |
| `BindOverlap.OverlapBreaksSafety` | services/src/peruser_session.cpp:892-898 | a run of two overlapping binds that leaves two groups bound to the real IME |
| `ClientBinding.FindByImePid` | services/src/peruser_session.cpp:1259-1273 | some client bound to the process, or none when there is none |
| `ClientBinding.FindBoundReal` | services/src/peruser_session.cpp:1192-1205 | some client bound to a real IME, or none when there is none |
| `ClientBinding.FindCurrentBoundReal` | services/src/peruser_session.cpp:1153-1167 | some group whose current client is bound to a real IME, or none when there is none |
| `PerUserSession.ClientGroup.AddClientInfo` | services/src/client_group.cpp:32-69 | takes the attach step of the group, in which a known client is refreshed and keeps its binding (`SessionChanges.AttachingAgainKeepsBindings`); a new one is added only if its death recipient was |
| `PerUserSession.ClientGroup.RemoveClientInfo` | services/src/client_group.cpp:71-85 | the client, and only it, is unregistered |
| `PerUserSession.ClientGroup.GetClientInfoByBindIme` | services/src/client_group.cpp:172-185 | a client bound to the process; none if and only if there is none |
| `PerUserSession.ClientGroup.GetClientInfoBoundRealIme` | services/src/client_group.cpp:187-199 | a client bound to a real IME; none if and only if there is none |
| `PerUserSession.ClientGroup.GetClientInfoByPid` | services/src/client_group.cpp:146-156 | a client of the process; none if and only if there is none |
| `PerUserSession.ClientGroup.GetClientInfoBySelfOrHost` | services/src/client_group.cpp:146-170 | a client of the process, or failing any such a client hosted by it |
| `PerUserSession.ClientGroup.UpdateClientInfo` | services/src/client_group.cpp:87-144 | exactly the fields with an update of their type change, in whatever order the updates come; only a new configuration and a new reason together leave the reason to the order; an unknown client changes nothing |
| `PerUserSession.ClientGroup.UpdateShown` | services/src/peruser_session.cpp:152-187 | showing and hiding change the shown flag only: the reason, passed as a plain number, is not stored |
| `PerUserSession.ClientGroup.EvictClient` | services/src/peruser_session.cpp:209-239 | both pointers are cleared where they name the client, and it is unregistered |
| `PerUserSession.Session.GetClientBoundImeByImePid` | services/src/peruser_session.cpp:1259-1273 | the walk over the groups in any order gives the one answer of the lookup |
| `PerUserSession.Session.GetClientBoundRealIme` | services/src/peruser_session.cpp:1192-1205 | the walk over the groups in any order gives the one answer of the lookup |
| `PerUserSession.Session.GetCurrentClientBoundRealIme` | services/src/peruser_session.cpp:1153-1167 | the walk over the groups in any order gives the one group of the lookup |
| `PerUserSession.Session.GetClientBySelfPidOrHostPid` | services/src/peruser_session.cpp:1223-1241 | a client that in its group matches by own pid first, then by host pid; none if and only if no group has a match |
| `PerUserSession.Session.GetClientGroup` | services/src/peruser_session.cpp:3154-3172 | a group the client is registered in; none if and only if there is none |
| `PerUserSession.Session.RemoveClient` | services/src/peruser_session.cpp:617-637 | the current pointer is cleared in preference to the inactive one, and the client is unregistered |
| `PerUserSession.Session.DeactivateClient` | services/src/peruser_session.cpp:639-667 | a registered client becomes inactive in state and pointer and stops being current |
| `PerUserSession.Session.ReplaceCurrentClient` | services/src/peruser_session.cpp:1518-1550 | the client becomes current; prior current and inactive clients of other processes leave |
| `PerUserSession.Session.HandleInMultiGroup` | services/src/peruser_session.cpp:932-961 | a client found in another group loses pointers and registration there; nothing else changes |
| `PerUserSession.Session.BindClientWithIme` | services/src/peruser_session.cpp:835-900 | takes the binding step when the IME accepted, changes nothing otherwise, and keeps the session invariant |
| `PerUserSession.Session.HandleOtherGroups` | services/src/peruser_session.cpp:902-920 | both clean-ups in order, the second only for a real IME, keeping the invariant |
| `PerUserSession.Session.HandleBindImeChanged` | services/src/peruser_session.cpp:3062-3117 | the current client leaves exactly when another client binds to an IME of another kind or a different proxy |
| `PerUserSession.Session.OnPrepareInput` | services/src/peruser_session.cpp:576-589 | takes the attach step for the client found by pid, says whether the client is registered, keeps the invariant |
| `PerUserSession.Session.AddClientInfo` | services/src/peruser_session.cpp:107-126 | registers in the group, creating the group with its first client only |
| `PerUserSession.Session.OnStartInput` | services/src/peruser_session.cpp:669-690 | takes the start-input step and keeps the invariant |
| `PerUserSession.Session.OnReleaseInput` | services/src/peruser_session.cpp:591-615 | takes the release step in the group found for the client, changes nothing for an unknown one, and keeps the invariant |
| `PerUserSession.Session.OnClientDied` | services/src/peruser_session.cpp:209-239 | takes the death step in the group found for the client, changes nothing for an unknown one, and keeps the invariant |
| `PerUserSession.Session.OnFocused` | services/src/peruser_session.cpp:1672-1701 | takes the focus step (deactivate for the scene board, remove otherwise) and keeps the invariant |
| `PerUserSession.Session.OnUnfocused` | services/src/peruser_session.cpp:1703-1722 | takes the unfocus step for the client found by pid, if any, and keeps the invariant |
| `PerUserSession.Session.UpdateClientAfterRequestHide` | services/src/peruser_session.cpp:524-557 | takes the hide step and keeps the invariant |
| `PerUserSession.Session.SetKeyboardShown` | services/src/peruser_session.cpp:128-189 | takes the show or hide step and keeps the invariant |
| `PerUserSession.Session.RemoveAllCurrentClient` | services/src/peruser_session.cpp:2430-2451 | every group's current client is removed, in any order of groups, and the invariant is kept |
| `PerUserSession.Session.OnSetCoreAndAgent` | services/src/peruser_session.cpp:1105-1133 | unless an attach is under way, clears the reason of the one current client bound to the real IME and re-binds it; keeps the invariant |
| `PerUserSession.Session.BindAfterProxy` | services/src/peruser_session.cpp:1334-1357 | binds a client looked up earlier, registered or not by now, and keeps the invariant |
| `PerUserSession.Session.RebindCurrentClient` | services/src/peruser_session.cpp:1275-1297 | re-binds the group's current client to the proxy and keeps the invariant |
| `ImeLifecycle.CreateKeepsConsistent` | services/src/peruser_session.cpp:2580-2610 | a new record starts a fresh history and leaves older ones alone |
| `ImeLifecycle.ActKeepsConsistent` | services/include/peruser_session.h:414-430 | applying the status table never takes a status back and makes no record READY twice |
| `ImeLifecycle.TakeOverKeepsConsistent` | services/src/peruser_session.cpp:1105-1133 | the status change of a hand-over keeps takeovers distinct, whichever record is there by then |
| `ImeLifecycle.NextKeepsConsistent` | services/src/peruser_session.cpp:1105-1133 | every lock section of every thread keeps the record in agreement with its history |
| `ImeLifecycle.AfterIsKept` | services/src/peruser_session.cpp:2414-2428 | whatever other threads do during a wait, the record is the one of before or a newer one, and with the start lock held nothing is created or connected |
| `ImeLifecycle.EveryRunIsGood` | services/src/peruser_session.cpp:2788-2801 | in every run over all interleavings statuses only advance and each record is taken over at most once |
| `ImeLifecycle.FlagIsEarned` | services/src/peruser_session.cpp:1105-1133 | during a start wait the started flag rises, or is about to, only for a record that became READY meanwhile |
| `ImeLifecycle.StartedMeansReadyIff` | services/src/peruser_session.cpp:2016-2034 | every wait that ends with the flag up means READY, if and only if no hand-over was about to raise it at the clear |
| `ImeLifecycle.SettledIff` | services/src/peruser_session.cpp:245-267 | during a stop wait a step makes a notice stand for a record still there if and only if it is the removal of a dead IME that finds another record |
| `ImeLifecycle.NoticeIsSettled` | services/src/peruser_session.cpp:2414-2428 | over any interleaving a notice stands for a record that is gone, unless such a removal happened |
| `ImeLifecycle.StopMeansGoneIff` | services/src/peruser_session.cpp:2414-2428 | without such a removal every wait that ends well means the record is gone, if and only if there was none or no notice was still to come at its start |
| `ImeLifecycle.DeathEndsStop` | services/src/peruser_session.cpp:245-267 | the death of an exiting IME during a stop wait removes its record and ends the wait |
| `ImeLifecycle.OtherDeathRemoves` | services/src/peruser_session.cpp:245-267 | the death of an IME that is not exiting only takes its record away, if it is still the one there |
| `ImeLifecycle.HandOverCompletesStart` | services/src/peruser_session.cpp:1105-1133 | an IME that connects and hands over its core makes its record READY with its core and raises the started flag |
| `ImeLifecycle.CoredIff` | services/src/peruser_session.cpp:1105-1133 | a step keeps a core for a READY record if and only if it is not the status change of a hand-over that filled another record |
| `ImeLifecycle.LateFlagExists` | services/src/peruser_session.cpp:1105-1133 | a run in which an old hand-over raises the flag after the clear, with the new record STARTING |
| `ImeLifecycle.LateNoticeExists` | services/src/peruser_session.cpp:245-267 | a run in which an old death notice ends the stop wait of the next IME, whose record is still there |
| `ImeLifecycle.MissedRemovalExists` | services/src/peruser_session.cpp:245-267 | a run in which the record of a dead IME was replaced before its removal, and the notice ends the stop wait of the next IME |
| `ImeLifecycle.MisdirectedExists` | services/src/peruser_session.cpp:1105-1115 | a run that leaves a READY record without a core |
| `ImeStartStop.RealIme.GetImeAction` | services/src/peruser_session.cpp:2788-2801 | status and action follow the table for the record that is there; history and record stay in agreement |
| `ImeStartStop.RealIme.InitRealImeData` | services/src/peruser_session.cpp:2580-2610 | a record that is there is used whatever IME it was made for; otherwise one is created if the connection could be made |
| `ImeStartStop.RealIme.UpdateRealImeData` | services/src/peruser_session.cpp:2612-2628 | the first step of a hand-over: the record is filled, and the hand-over goes on only if the death recipient was added |
| `ImeStartStop.RealIme.TakeOverCore` | services/src/peruser_session.cpp:1112-1118 | the second step: the table is applied to the record there by now, and the hand-over goes on only if that made it READY |
| `ImeStartStop.RealIme.LookAtDeadIme` | services/src/peruser_session.cpp:259-260 | the first step of a death: it leads to a notice exactly if the process is that of an exiting record |
| `ImeStartStop.RealIme.RemoveDeadIme` | services/src/peruser_session.cpp:717-728 | the second step: the record goes if it is still that of the dead process; the notice follows in either case |
| `ImeStartStop.RealIme.Wait` | services/src/peruser_session.cpp:2414-2428 | other threads take any of the given steps they can; the machine facts about waits hold |
| `ImeStartStop.RealIme.WaitForCurrentImeStop` | services/src/peruser_session.cpp:2414-2420 | a wait that ends well means every record of before is gone, unless a notice was late |
| `ImeStartStop.RealIme.ForceStopCurrentIme` | services/src/peruser_session.cpp:2915-2950 | success means there is no record; what is returned and what is told to stop in every case, and that the IME is waited for before its record is removed |
| `ImeStartStop.RealIme.StopReadyCurrentIme` | services/src/peruser_session.cpp:2884-2913 | success means every record of before is gone, also if the death came before the wait, unless a notice was late; an IME with its core is asked first |
| `ImeStartStop.RealIme.AwaitStop` | services/src/peruser_session.cpp:2908-2912 | a wait that ends well is the end of it: nothing is forced; otherwise the IME is forced to stop |
| `ImeStartStop.RealIme.StopCurrentIme` | services/src/peruser_session.cpp:2868-2882 | the same; with the start lock held there is no record at all; without other threads, exactly what is returned, told to stop and left, the record being EXITING if the stop failed |
| `ImeStartStop.RealIme.ConnectAndWait` | services/src/peruser_session.cpp:2016-2045 | exactly one connection request; success means the record there before became READY, unless the clear was late |
| `ImeStartStop.RealIme.StartInputService` | services/src/peruser_session.cpp:1995-2045 | which outcome is returned in every case; success means the record used became READY, unless the clear was late; with no record before, only a record made now is connected; a fitting record is connected for its own IME; without other threads, the record, the connection and the result |
| `ImeStartStop.RealIme.HandleFirstStart` | services/src/peruser_session.cpp:2952-2984 | when a start after a restart of the service is refused, counts as done, or goes on, and what becomes of the two flags; where it goes on, as the start service |
| `ImeStartStop.RealIme.StartAfterForceStop` | services/src/peruser_session.cpp:2832-2836 | success means that IME became READY, unless the clear was late; connections are for their own IME |
| `ImeStartStop.RealIme.StartAfterLook` | services/src/peruser_session.cpp:2813-2836 | a STARTING IME within its time is connected once more and neither waited for nor stopped; over its time or EXITING it is forced to stop first |
| `ImeStartStop.RealIme.HandleStartImeTimeout` | services/src/peruser_session.cpp:2839-2857 | an IME READY by now is left alone; with a fitting record success means that IME became or is READY, unless the clear was late; without other threads, the STARTING one is forced to stop without waiting |
| `ImeStartStop.RealIme.StartCurrentIme` | services/src/peruser_session.cpp:2803-2837 | a READY IME is left alone and a STARTING one within its time only connected, whatever other threads do; with a fitting record success means that IME became or is READY, unless the clear was late; without other threads, every outcome |
| `ImeStartStop.RealIme.StartNewIme` | services/src/peruser_session.cpp:2859-2866 | connects only fresh records, each for its own IME, and success means that IME became READY, unless a clear or a notice was late; without other threads, the IME there is stopped first and nothing is connected if that fails |
| `ImeStartStop.RealIme.StartIme` | services/src/peruser_session.cpp:2764-2786 | refused without the lock or a target, changing nothing; a start of an IME that is READY when looked at succeeds and neither stops nor connects it, whatever other threads do; success means that IME became or is READY; a switch or a stop connects only fresh records, each for its own IME, but for a late clear or notice; without other threads, exactly what is returned, stopped, connected and left in every case |
| `ImeStartStop.RunCalls` | services/src/peruser_session.cpp:2764-2984 | after any sequence of starts, stops and steps of other threads the history is good; with starts one after another each IME is connected to its own record unless a notice was late |
| `PushToTalk.NextKeepsInv` | services/src/push_to_talk_manager.cpp:79-283 | every task keeps the gesture context, the timer and the voice record in step with the controller state |
| `PushToTalk.RunKeepsInv` | services/src/push_to_talk_manager.cpp:79-439 | the same in every state of every run |
| `PushToTalk.PairedExtends` | services/src/push_to_talk_manager.cpp:236-353 | a start after no open start, or a stop for the user of the open one, keeps starts and stops paired |
| `PushToTalk.PendingStep` | services/src/ptt_controller.cpp:130-169 | a pending gesture was pending before and undisturbed, or began with this press under the stated conditions |
| `PushToTalk.PendingWasPressed` | services/src/push_to_talk_manager.cpp:138-211 | a pending gesture goes back to one press, with its user, client and due time, and only harmless events since |
| `PushToTalk.VoiceNeedsFullHold` | services/src/push_to_talk_manager.cpp:236-283 | voice starts only on a time-out at least the configured delay after a lone space press, with no release or other key between, same client, same user |
| `PushToTalk.PendingIff` | services/src/ptt_controller.cpp:20-169 | a gesture is pending after a task if and only if it was and no key disturbs it, or an idle one begins with a lone press for which the timer can be set |
| `PushToTalk.ActiveIff` | services/src/ptt_controller.cpp:20-169 | voice is active after a task if and only if it was and neither space comes up nor another key moves, or the time-out of a pending gesture could start it |
| `PushToTalk.IdleIff` | services/src/ptt_controller.cpp:20-169 | the controller is idle after a task if and only if space came up, or it was and space did not go down |
| `PushToTalk.VoicesIff` | services/src/push_to_talk_manager.cpp:236-353 | voice starts and stops exactly then, for the user of the gesture |
| `PushToTalk.VoiceLastsUntilKey` | services/src/push_to_talk_manager.cpp:236-353 | in every run a started voice goes on exactly until space comes up or another key moves |
| `PushToTalk.HoldStartsVoice` | services/src/push_to_talk_manager.cpp:138-285 | voice does start when space is held alone until the time-out finds the same usable client |
| `PushToTalk.EveryRunIsOrderly` | services/src/push_to_talk_manager.cpp:236-353 | in every run: bound exactly while pending or active, timed exactly while pending, starts and stops alternate per user, active exactly while a start is not stopped |
| `PushToTalk.PttController.HasOtherPressedKey` | services/src/ptt_controller.cpp:171-180 | true if and only if some pressed key is not space |
| `PushToTalk.PttController.HandleKeyEvent` | services/src/ptt_controller.cpp:20-48 | new state and action as the four-state machine says |
| `PushToTalk.PttController.HandleSpaceDownLocked` | services/src/ptt_controller.cpp:130-142 | only an idle controller reacts: pending if space is alone, suppressed otherwise |
| `PushToTalk.PttController.HandleSpaceUpLocked` | services/src/ptt_controller.cpp:144-154 | always idle afterwards; cancels a pending timer, stops an active voice |
| `PushToTalk.PttController.HandleOtherKeyLocked` | services/src/ptt_controller.cpp:156-169 | a pending or active gesture is suppressed with the matching action, other states stay |
| `PushToTalk.PttController.HandleTimeout` | services/src/ptt_controller.cpp:50-60 | only a pending gesture becomes active and starts voice |
| `PushToTalk.PttController.SuppressUntilSpaceUp` | services/src/ptt_controller.cpp:78-88 | suppressed unless idle |
| `PushToTalk.PushToTalkManager.HandleStartTimer` | services/src/push_to_talk_manager.cpp:138-221 | binds user, client and timer, or gives the gesture up on every failing path |
| `PushToTalk.PushToTalkManager.HandleStartVoice` | services/src/push_to_talk_manager.cpp:236-307 | starts voice for the bound user, or gives the gesture up on every failing path |
| `PushToTalk.PushToTalkManager.HandleStopVoice` | services/src/push_to_talk_manager.cpp:309-353 | ends voice input for the bound user, if any, with what the session could still be sent, and unbinds |
| `PushToTalk.PushToTalkManager.KeyEventTask` | services/src/push_to_talk_manager.cpp:79-136 | one key task is one step of the machine |
| `PushToTalk.PushToTalkManager.LongPressTimeoutTask` | services/src/push_to_talk_manager.cpp:166-211 | one time-out task is one step of the machine |
| `ImeState.ControlKeepsInv` | services/src/freeze_manager.cpp:28-47 | acting on a flip of the frozen flag keeps controls alternating, at most one task, and right reports to come |
| `ImeState.PerformKeepsInv` | services/src/freeze_manager.cpp:28-47 | so does each single effect: a report, a cancel, a post |
| `ImeState.NextKeepsInv` | services/src/ime_state_manager.cpp:30-64 | every step keeps flags, tasks, controls and reports in agreement, with tasks taken and run at any moment |
| `ImeState.RunKeepsInv` | services/src/ime_state_manager.cpp:30-64 | the same in every state of every interleaving |
| `ImeState.EveryRunAgrees` | services/src/ime_state_manager.cpp:30-64 | with no call in flight frozen is the opposite of in use, and control calls alternate, the first unfreezing |
| `ImeState.UseStep` | services/src/ime_state_manager.cpp:30-64 | what begins and ends the use of the IME, step by step |
| `ImeState.EndOfUseFreezes` | services/src/ime_state_manager.cpp:44-64 | a call that ends the use leaves the IME out of use and frozen; a stop does so whatever the IME answered |
| `ImeState.InUseIff` | services/src/ime_state_manager.cpp:30-64 | over any interleaving the IME is in use if and only if something began its use and nothing ended it since |
| `ImeState.SerialUseIff` | services/src/peruser_session.cpp:2341-2359 | with calls made one at a time, between calls it is in use, and not frozen, if and only if a start or show succeeded and no stop, successful hide, or failed start or show came after it |
| `ImeState.RightIff` | services/src/freeze_manager.cpp:28-47 | a step leaves the last report right, or a right one to come, if and only if it is not an active report made with a freeze report taken and yet to be made |
| `ImeState.WrongStaysWrong` | services/src/freeze_manager.cpp:28-47 | after such a step the reports stay wrong until the IME is frozen again |
| `ImeState.FreezeReportsSettleIff` | services/src/freeze_manager.cpp:28-76 | whenever nothing is under way after a request, the last report agrees with the flag if and only if no report was overtaken since the IME was last frozen |
| `ImeState.LateReportExists` | services/src/freeze_manager.cpp:28-47 | a run that ends with nothing under way and a used IME reported frozen |
| `ImeState.PendingWasFrozen` | services/src/ime_lifecycle_manager.cpp:23-55 | a waiting task was posted while the IME was frozen, one delay before it is due, and no bracket has taken it back since |
| `ImeState.StopNeedsFullFreeze` | services/src/ime_lifecycle_manager.cpp:23-55 | the stop function runs only for a task that was taken after its full delay, posted while frozen and not taken back before it was taken |
| `ImeState.TimelyIff` | services/src/ime_lifecycle_manager.cpp:23-55 | a step lets a taken task meet an unfrozen IME if and only if it unfreezes with a task taken, or takes a task between unfreezing and its cancel |
| `ImeState.StopFindsFrozen` | services/src/ime_lifecycle_manager.cpp:23-55 | in every run without such a step the IME was frozen from the post to the stop |
| `ImeState.LateStopExists` | services/src/ime_lifecycle_manager.cpp:23-55 | a run in which the IME is stopped while it is in use |
| `ImeState.OverlapFreezesDuringCall` | services/src/peruser_session.cpp:2341-2359 | two overlapping calls can leave the IME frozen while one is in flight |
| `ImeState.UnfrozenIff` | services/src/ime_state_manager.cpp:44-64 | a step freezes the IME during a call if and only if it ends a call, leaving the IME out of use, while another is under way |
| `ImeState.CallsAreUnfrozen` | services/src/peruser_session.cpp:2341-2359 | in every run without such a step no call meets a frozen IME |
| `ImeState.SerialCallsAreUnfrozen` | services/src/peruser_session.cpp:2341-2359 | calls made one at a time never see a frozen IME |
| `ImeState.HideIsInvisibleIff` | services/src/ime_state_manager.cpp:23-28 | a hide is left out if and only if sending it would change no flag, whatever the IME answered |
| `ImeState.NeedlessHidePutsOffStop` | services/src/ime_state_manager.cpp:23-28 | sent all the same, such a hide would restart the delay before the idle IME is stopped |
| `ImeState.TemporaryIsVisible` | services/src/freeze_manager.cpp:65-76 | only a frozen IME of a freeze manager is reported active and then frozen, and nothing else changes |
| `ImeState.RequestKeepsInv` | services/src/peruser_session.cpp:2341-2359 | whatever other threads do during a request, it keeps the invariant and leaves the IME frozen exactly if it is not in use |
| `ImeState.ImeStateManager.RequestIme` | services/src/peruser_session.cpp:2341-2359 | the bracketed call with other threads in between, or none for a needless hide, which leaves the flags as the call would have |
| `ImeState.ImeStateManager.ControlIme` | services/src/ime_lifecycle_manager.cpp:23-55 | posts, cancels and reports as the kind of manager prescribes, with or without a handler, whose thread may act before each |
| `ImeState.ImeStateManager.BeforeIpcBracket` | services/src/ime_state_manager.cpp:30-42 | the opening bracket is its step and the effects that follow |
| `ImeState.ImeStateManager.AfterIpcBracket` | services/src/ime_state_manager.cpp:44-64 | the closing bracket is its step and the effects that follow |
| `ImeState.ImeStateManager.TemporaryActivate` | services/src/freeze_manager.cpp:65-76 | a frozen IME is reported active and frozen again, and no flag changes |
| `SwitchRequests.InvIff` | services/src/input_method_system_ability.cpp:2525-2558 | a step keeps one task per set flag and the counts if and only if it is not a refused post |
| `SwitchRequests.RunKeepsInv` | services/src/input_method_system_ability.cpp:2525-2558 | with a live handler: one task, posted or about to be, exactly while the flag is set, and the counts add up |
| `SwitchRequests.NextIndexIsExactIff` | services/src/ime_info_inquirer.cpp:465-495 | the service's index is the true modular one if and only if the sum fits 32 bits or the list size divides 2^32 |
| `SwitchRequests.WrappedIndexIsWrong` | services/src/ime_info_inquirer.cpp:465-495 | an input for which the 32-bit sum gives another place than the true one |
| `SwitchRequests.PressesAreConserved` | services/src/input_method_system_ability.cpp:2605-2635 | taken plus waiting presses equal the requested ones, and the current index is the start plus the served presses modulo the list size |
| `SwitchRequests.QuietRunsIgnoreBatching` | services/src/input_method_system_ability.cpp:2605-2635 | once idle with no failed switch, the index is the one that as many single presses reach |
| `SwitchRequests.SingleStepsAdvance` | services/src/ime_info_inquirer.cpp:465-495 | k single presses advance k places modulo the list size |
| `SwitchRequests.IdleMeansServed` | services/src/input_method_system_ability.cpp:2525-2558 | at most one task, there exactly while the flag is set; idle means every press was served or dropped by a failed switch |
| `SwitchRequests.CheckIff` | services/src/input_method_system_ability.cpp:2605-2635 | a check ends the task if and only if no press came since it took the count |
| `SwitchRequests.TasksEnd` | services/src/input_method_system_ability.cpp:2605-2635 | without further presses the task ends after a bounded number of steps, and one is possible until then |
| `SwitchRequests.LostPostStrandsForever` | services/src/input_method_system_ability.cpp:2525-2558 | after one refused task no later press is ever taken |
| `SwitchRequests.LostPostExists` | services/src/input_method_system_ability.cpp:2525-2558 | a run with a refused task |
| `SwitchRequests.GetSwitchInfoBySwitchCount` | services/src/ime_info_inquirer.cpp:465-495 | from the first place of the current method the given number of places along; stay, fall back, or fail otherwise |
| `SwitchRequests.SwitchCounter.DealSwitchRequest` | services/src/input_method_system_ability.cpp:2525-2558 | the press is counted, and a task is to be posted exactly if none is executing |
| `SwitchRequests.SwitchCounter.TakeCount` | services/src/input_method_system_ability.cpp:2605-2635 | the whole count is taken and reset |
| `SwitchRequests.SwitchCounter.CheckSwitchCount` | services/src/input_method_system_ability.cpp:2605-2635 | go on if presses came, otherwise clear the flag in the same critical section |
| `RestartTasks.RunIsBounded` | services/src/peruser_session.cpp:2476-2573 | the counter never exceeds two, whatever the handler refuses |
| `RestartTasks.CoveredIff` | services/src/peruser_session.cpp:2476-2573 | a step keeps a task for a positive counter if and only if it is not the refused re-post of the only task |
| `RestartTasks.RunIsCovered` | services/src/peruser_session.cpp:2476-2573 | in every run without that refusal a positive counter has a task posted, waiting, or not yet past its decrement |
| `RestartTasks.StrandedForever` | services/src/peruser_session.cpp:2549-2553 | after that refusal the counter stays positive without a task for the rest of the run |
| `RestartTasks.StrandingExists` | services/src/peruser_session.cpp:2549-2553 | a run with that refusal |
| `RestartTasks.RequestStaysAwaited` | services/src/peruser_session.cpp:2476-2573 | after a request, until a task attempts a start, gives up or is refused, some task is on its way to an attempt |
| `RestartTasks.RequestsAreServed` | services/src/peruser_session.cpp:2476-2573 | whenever all tasks are done, each request was followed by an attempt, or ended without one because a task found that the IME cannot be started, was discarded for the first scene-board start, or was refused |
| `RestartTasks.DecisionIs` | services/src/peruser_session.cpp:2541-2553 | a task drops its request if and only if an attach is under way during the first scene-board start, waits if and only if one is otherwise and it waited fewer than 20 times, and goes on in every other case |
| `RestartTasks.RequestsAreStarted` | services/src/peruser_session.cpp:2476-2573 | without such an attach every request is followed by a start, or by a refusal of the handler, before all tasks are done |
| `RestartTasks.GivingUpLoses` | services/src/peruser_session.cpp:2541-2558 | runs in which a request ends without an attempt, for both ways of giving up |
| `RestartTasks.AtMostTwentyRetriesInARow` | services/src/peruser_session.cpp:2493-2503 | at most 20 re-posts for an attach without a task getting past the check |
| `RestartTasks.QueuedTasksAreUnbounded` | services/src/peruser_session.cpp:2524-2573 | for every k some run has k tasks waiting |
| `RestartTasks.TasksGrowIff` | services/src/peruser_session.cpp:2476-2491 | a step adds a task if and only if it is a request that finds the counter at zero or below |
| `RestartTasks.TasksBoundedStepIff` | services/src/peruser_session.cpp:2476-2573 | a step keeps at most k tasks if and only if it is not such a request with k tasks out |
| `RestartTasks.TasksBoundedIff` | services/src/peruser_session.cpp:2476-2573 | a run has at most k tasks at any time if and only if no request finds the counter reset with k tasks out |
| `RestartTasks.RestartCounter.AddRestartIme` | services/src/peruser_session.cpp:2476-2491 | the request step, and whether it posts a task |
| `RestartTasks.RestartCounter.ResetRestartTasks` | services/src/peruser_session.cpp:2518-2522 | the refused-post step |
| `RestartTasks.RestartCounter.IsAttachFinished` | services/src/peruser_session.cpp:2493-2503 | finished without attaches or after 20 waits, which then start over |
| `RestartTasks.RestartCounter.RestartTaskHead` | services/src/peruser_session.cpp:2524-2573 | the check step and its decision: discard, retry or proceed |
| `RestartTasks.RestartCounter.RestartTaskTail` | services/src/peruser_session.cpp:2524-2573 | the decrement step, and whether it re-posts |
| `SwitchQueue.BlockQueue.Push` | common/include/block_queue.h:45-53 | appended unless full, and whether it was |
| `SwitchQueue.BlockQueue.Pop` | common/include/block_queue.h:35-43 | the front leaves; nothing happens to an empty queue |
| `SwitchQueue.ReadyIffFirstLive` | common/include/block_queue.h:63-67 | with distinct entries a waiting thread finds its entry in front if and only if it is the first unfinished queued thread |
| `SwitchQueue.LookForTurn` | common/include/block_queue.h:63-67 | the look is defined, and says whether everyone queued before has finished |
| `SwitchQueue.WhoseTurn` | common/include/block_queue.h:69-77 | the front is the entry of the first unfinished queued thread; there is none if and only if no such thread is left |
| `SwitchQueue.OnSwitchInputMethod` | services/src/input_method_system_ability.cpp:1830-1854 | every path after the wait takes the leaving step, with its one pop |
| `SwitchQueue.OnStartInputType` | services/src/input_method_system_ability.cpp:1868-1894 | every path after the wait takes the leaving step, with its one pop |
| `SwitchQueue.LiveTail` | common/include/block_queue.h:35-43 | finishing the first unfinished thread takes exactly the head off the expected queue |
| `SwitchQueue.RefusedPushIff` | common/include/block_queue.h:45-53 | a push is refused if and only if 1000 entries are queued, and leaves the queue as it is |
| `SwitchQueue.InvIff` | services/src/input_method_system_ability.cpp:1830-1894 | a step keeps the queue equal to the unfinished queued threads in push order if and only if nobody starts out of turn |
| `SwitchQueue.OrderIff` | services/src/input_method_system_ability.cpp:1830-1894 | a queued thread that starts, in turn or by an expired wait, keeps the push order if and only if it is the first unfinished one |
| `SwitchQueue.ConditionsGiveTurns` | common/include/block_queue.h:55-67 | with distinct entries and no expired wait everyone starts in turn, in every run |
| `SwitchQueue.SwitchesRunInOrder` | services/src/input_method_system_ability.cpp:1830-1894 | as long as everyone starts in turn, one switch runs at most, the front one, and everyone queued before it has finished |
| `SwitchQueue.PopRemovesOwnEntry` | services/src/input_method_system_ability.cpp:1830-1894 | the pop of a leaving thread removes that thread's entry |
| `SwitchQueue.WaitersSeeAFront` | common/include/block_queue.h:55-67 | a waiting queued thread never looks at the front of an empty queue |
| `SwitchQueue.ConditionsAreNeeded` | common/include/block_queue.h:55-61 | equal entries, or an expired wait, let two switches run at once |
| `ProxyImes.RunKeepsOrder` | services/src/peruser_session.cpp:1552-1596 | in every run each display's proxies are distinct and in order of latest registration, but for one proxy overall put in front |
| `ProxyImes.StampIsLatestRegistration` | services/src/peruser_session.cpp:1552-1578 | the order is the true one: a record's stamp counts the registrations before the last one of its process on its display |
| `ProxyImes.TopIsLatest` | services/src/peruser_session.cpp:783-795 | the proxy in use is the most recently registered one still there |
| `ProxyImes.UnregisterUndoesRegister` | services/src/peruser_session.cpp:1363-1387 | registering and unregistering leaves the lists as if only unregistered; a new proxy leaves no trace and the old top is back |
| `ProxyImes.FrontIff` | services/src/peruser_session.cpp:1580-1596 | a new proxy goes in front if and only if it is the first to meet a display in use, the top is enabled and it is not; otherwise it becomes the top; other displays are untouched |
| `ProxyImes.DeathClearsEverywhere` | services/src/peruser_session.cpp:743-766 | a dead process is on no display, other proxies stay in place, and no empty list remains |
| `ProxyImes.ProxyTable.AddProxyImeData` | services/src/peruser_session.cpp:1552-1596 | the registration step, nothing without a core and an agent, and the record returned, if any |
| `ProxyImes.ProxyTable.RemoveProxyImeData` | services/src/peruser_session.cpp:1363-1387 | the unregistration step |
| `ProxyImes.ProxyTable.RemoveDeadProxy` | services/src/peruser_session.cpp:743-766 | the death step, whatever the order of displays |
| `ProxyImes.ProxyTable.GetProxyImeData` | services/src/peruser_session.cpp:783-795 | the last record of the display, or none |
| `SubtypeLabels.CollectLabelIds` | services/src/ime_info_inquirer.cpp:841-858 | the resource numbers of the kept subtypes' labels, in profile order |
| `SubtypeLabels.FillSubProperty` | services/src/ime_info_inquirer.cpp:860-892 | the finished record with the next batch label, which is consumed exactly if the label names a resource |
| `SubtypeLabels.NextLabel` | services/src/ime_info_inquirer.cpp:758-795 | the two passes stay aligned: at each subtype the next batch entry is the number that its label names |
| `SubtypeLabels.ResourceIdIs` | services/src/ime_info_inquirer.cpp:876-892 | a label or icon names a resource if and only if a positive number follows its first colon |
| `SubtypeLabels.LanguageIs` | services/src/ime_info_inquirer.cpp:821-839 | the language is the part before the separator, with two names spelled out |
| `SubtypeLabels.DashBeforeUnderscore` | services/src/ime_info_inquirer.cpp:821-839 | with an underscore after a dash the dash stays part of the language |
| `SubtypeLabels.ResolvedIs` | services/src/ime_info_inquirer.cpp:860-892 | the label is resolved if and only if it names a resource, and every other field is carried over |
| `SubtypeLabels.ListInputMethodSubtype` | services/src/ime_info_inquirer.cpp:758-795 | the finished records of the profile without input types, in order; fails only if the string service was needed and failed |
| `SubtypeLabels.GetSubProperty` | services/src/ime_info_inquirer.cpp:591-634 | the finished record of the first subtype with the id, of the first subtype if there is none, nothing for an empty profile |
| `SubtypeLabels.BatchAgreesWithSingle` | services/src/ime_info_inquirer.cpp:758-795 | for each record of the batch the single lookup returns the first record with its id; the two agree if and only if that is the same record, so always with distinct ids |
| `SubtypeLabels.SharedIdDisagrees` | services/src/ime_info_inquirer.cpp:591-634 | of two subtypes with one id the single lookup gives the second's record if and only if they resolve alike |
| `ImeInfoCache.PutIsUpdate` | services/src/full_ime_info_manager.cpp:297-318 | adding changes what the cache says about that bundle only, and names stay unique |
| `ImeInfoCache.DeleteIsRemoval` | services/src/full_ime_info_manager.cpp:320-337 | deleting makes the cache forget that bundle only |
| `ImeInfoCache.DeleteDropsUserIff` | services/src/full_ime_info_manager.cpp:320-337 | the user's entry goes if and only if the deleted bundle was the last one |
| `ImeInfoCache.ChangeSettles` | services/src/im_common_event_manager.cpp:395-456 | a package change leaves its bundle right or about to be put right, if and only if it is not an "added" event for a bundle that is no IME and is cached or about to be |
| `ImeInfoCache.LookSettles` | services/src/im_common_event_manager.cpp:403-413 | so does the look at an event, if and only if it does not drop a removal with the bundle yet to be stored |
| `ImeInfoCache.AskSettles` | services/src/im_common_event_manager.cpp:414-426 | so does the question whether the bundle is an IME, if and only if it does not fail with nothing else to put the bundle right |
| `ImeInfoCache.QuestionSettles` | services/src/full_ime_info_manager.cpp:297-303 | so does the question for the record, if and only if it does not fail with nothing following |
| `ImeInfoCache.RemovalSettles` | services/src/input_method_system_ability.cpp:2429-2434 | handling a removal keeps every bundle right or about to be put right |
| `ImeInfoCache.StoreSettles` | services/src/full_ime_info_manager.cpp:304-317 | storing the answer does so for every bundle |
| `ImeInfoCache.LoadSettles` | services/src/full_ime_info_manager.cpp:277-295 | asking about a user and storing the answer does so, unless the question fails |
| `ImeInfoCache.SettlesIff` | services/src/im_common_event_manager.cpp:403-426 | over all steps of the three threads: a settling bundle is lost exactly by the listed steps, and a lost one stays lost until it changes or its user is loaded |
| `ImeInfoCache.CacheAgreesWhenQuiet` | services/src/input_method_system_ability.cpp:2132-2169 | from agreement, after any run without a losing step, with nothing on its way the cache agrees with the package manager and names are unique |
| `ImeInfoCache.LostUntilRenewed` | services/src/input_method_system_ability.cpp:2132-2169 | after a losing step the cache is wrong whenever nothing is on its way, until the bundle changes or its user is loaded |
| `ImeInfoCache.LoadingRenews` | services/src/full_ime_info_manager.cpp:277-295 | starting to load an unknown user settles every bundle of the user, if and only if its removal is not still on its way |
| `ImeInfoCache.LoadedIsInSync` | services/src/full_ime_info_manager.cpp:277-295 | with nothing in between, loading a user makes a bundle right if and only if the cache did not know the user or was right about the bundle before |
| `ImeInfoCache.MissedEventExists` | services/src/im_common_event_manager.cpp:403-426 | a run from agreement to a quiet wrong cache through an "added" event of a bundle that is no IME any more |
| `ImeInfoCache.OvertakenRemovalExists` | services/src/full_ime_info_manager.cpp:297-318 | such a run in which a removal is looked at between the question and the store of an add |
| `ImeInfoCache.OvertakenLoadExists` | services/src/full_ime_info_manager.cpp:277-295 | a run in which a removal is looked at while its user is loaded, which leaves the bundle in the cache |
| `ImeInfoCache.FailedQuestionExists` | services/src/im_common_event_manager.cpp:403-426 | a run from agreement to a quiet wrong cache through a failed question |
| `ImeInfoCache.StoreBeforeLoadHidesOthers` | services/src/full_ime_info_manager.cpp:277-318 | a store for a user not loaded makes loading do nothing, and the user's other IMEs are missing |
| `ImeInfoCache.FullImeInfoManager.Has` | services/src/full_ime_info_manager.cpp:215-225 | whether the bundle is cached for the user |
| `ImeInfoCache.FullImeInfoManager.Get` | services/src/full_ime_info_manager.cpp:190-213 | the cached record with the status of the settings, or with its own if they have none; none if the bundle is not cached |
| `ImeInfoCache.FullImeInfoManager.AddPackage` | services/src/full_ime_info_manager.cpp:297-318 | the record replaces any older one at the end of the list; a failed query changes nothing |
| `ImeInfoCache.FullImeInfoManager.DeletePackage` | services/src/full_ime_info_manager.cpp:320-337 | the record goes, and the user's entry with the last one |
| `ImeInfoCache.FullImeInfoManager.AddUser` | services/src/full_ime_info_manager.cpp:277-295 | takes the steps of loading: a known user is left alone, an unknown one is stored, and a failed question changes nothing |
| `ImeInfoCache.FullImeInfoManager.IfNeedToBeProcessed` | services/src/im_common_event_manager.cpp:403-426 | the message, or none, that the look and the questions of the subscriber lead to |
| `FaultReporter.FaultKeyIsInjective` | common/imf_hisysevent/src/imf_hisysevent_reporter.cpp:125-137 | equal keys mean equal faults, whatever slashes the peer name holds |
| `FaultReporter.ReportsAreSpaced` | common/imf_hisysevent/src/imf_hisysevent_reporter.cpp:100-151 | reports of one key are five minutes apart in every run, with stale records being dropped |
| `FaultReporter.ReportedIff` | common/imf_hisysevent/src/imf_hisysevent_reporter.cpp:100-123 | in every run a fault is reported at once if and only if its key was not reported in the last five minutes |
| `FaultReporter.CleanUpIff` | common/imf_hisysevent/src/imf_hisysevent_reporter.cpp:139-151 | a clean-up takes a record away if and only if its last report is more than ten minutes old |
| `FaultReporter.ConservesIffNoWrap` | common/imf_hisysevent/src/imf_hisysevent_reporter.cpp:100-123 | a step keeps seen = reported + waiting + lost for every key if and only if it does not overflow a counter |
| `FaultReporter.OverflowExists` | common/imf_hisysevent/src/imf_hisysevent_reporter.cpp:100-123 | a run that reaches the overflow: 2^32 faults of one key within the interval |
| `FaultReporter.FaultsAreConserved` | common/imf_hisysevent/src/imf_hisysevent_reporter.cpp:100-151 | without overflow no fault goes unaccounted for in any run |
| `FaultReporter.Limiter.GenerateFaultReportInfo` | common/imf_hisysevent/src/imf_hisysevent_reporter.cpp:100-123 | the fault step, whether to report, and the number to report |
| `FaultReporter.Limiter.ClearFaultEventInfo` | common/imf_hisysevent/src/imf_hisysevent_reporter.cpp:139-151 | one stale record goes, whichever the walk meets first; none if and only if none is stale |
| `Utf16.EncodeDecodes` | common/src/string_utils.cpp:63-88 | encoding the decoded code points gives the text back, unpaired surrogates included |
| `Utf16.DecodeEncodesIff` | common/src/string_utils.cpp:63-88 | decoding undoes encoding if and only if no lead surrogate stands before a trail surrogate among the code points |
| `Utf16.TakeIsPrefixByCodePoints` | common/src/string_utils.cpp:63-88 | the truncated text decodes to the first code points and its end never splits a surrogate pair |
| `Utf16.TakeByEncoding` | common/src/string_utils.cpp:63-88 | truncation is decoding, cutting and encoding |
| `Utf16.TakeTwice` | common/src/string_utils.cpp:63-88 | truncating twice is truncating once to the smaller number |
| `Utf16.TruncatesIff` | common/src/string_utils.cpp:63-88 | the promise is kept if and only if the early return by 32-bit length is not taken for a longer text; always below 2^31 units |
| `Utf16.LongTextIsNotTruncated` | common/src/string_utils.cpp:63-88 | a text of 2^31 units is not cut |
| `Utf16.TruncateUtf16String` | common/src/string_utils.cpp:63-88 | the loop computes the reference truncation unless it returns early |
| `Utf16.CountsAllIff` | common/src/string_utils.cpp:56-61 | all code points are counted if and only if the length fits 32 bits, or is read as minus one and the text holds no zero |
| `Utf16.CountUtf16Chars` | common/src/string_utils.cpp:56-61 | the code points of the part that the length in 32 bits stands for; all of them below 2^31 units |

## Left out

- Steps are atomic: one locked section, one question, one effect or one task of a serial queue is one step. For client bookkeeping it is one entry point, with binding a client looked up earlier (`LateBind`) and the parts of binds (`BindOverlap`) as steps of their own; marking a client and replacing the current one stay one step.
- Client objects and processes: `Client` carries its pid, so an object never changes process.
- UI-extension hosts: the first match by host pid depends on map order, so one registration per client is claimed only without hosting (`EveryClientInOneGroup`).
- The choice of the IME that a client is bound to (enabled proxy, default-display proxy, real IME) is an input of the start-input step.
- Mirror IMEs: binding one changes no client record, and its own bookkeeping is not modelled.
- ImeStartStop.RealIme.StartIme: the screen is taken as unlocked and the start lock as held; screen-lock substitution, image making, low-memory paths and the default-IME fallback are not modelled.
- ImeLifecycle: the `serial` of a record, the history and the places of other threads are annotations of the model; the service tells records apart by address. The wait for the extension's disconnection before a death is looked at is part of the time that passes.
- PushToTalk: the key code of space comes from the platform's input service; the dialog, roll-back of typed spaces and the content of private commands are left out. The service handler is fixed for a run.
- ImeState.ImeStateManager.ControlIme: one manager owns its task name; tasks of several managers under one name are not modelled.
- RestartTasks: a task's delay is not modelled, and the count of attach waits belongs to one session.
- SwitchQueue: a thread whose push met a full queue may wait forever, and only its harmlessness to the others is shown.
- SwitchRequests: the list of enabled methods is stable during a run; a failed switch drops the presses it took, as in the service.
- ProxyImes: the `since` stamp is an annotation of the model, tied to the run by `StampIsLatestRegistration`.
- SubtypeLabels: number parsing, the input-type registry and the string service are functions of the environment; the string service answers each number alike alone or in a batch.
- ImeInfoCache: package events are delivered one by one in the order of the changes; parsing of bundle data, removing a user, and the first and hourly load of the whole cache are left out.
- Utf16.CountUtf16Chars: the count itself is a number without bound; a text of 2^32 - 1 units or more without zeros may have more code points than its 32-bit result holds.
- FaultReporter: counting of calls per time interval and `CountDistributionInfo`, which add one to a cell of an array chosen by time or duration.
- `IsRequestOverLimit`, exam mode and backup restore: small flag-and-counter code next to external settings.
- Permission and identity checks, IPC stubs, death-recipient plumbing, JSON and configuration parsing, language bindings, dump, trace and logging.
- Listener lists, concurrent maps, colour parsing, message handler and error tables: short local reasoning only.
