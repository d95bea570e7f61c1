# Entertainment services: verified models of the stateful cores

The plugins of this repository manage an RDK set-top box or TV. Their hard parts are state
machines driven by clients, timers and hardware. This project models them in Dafny and proves
what they promise over every run. `dafny verify dfyconfig.toml` checks all of it.

**Power-mode transitions.** A `SetPowerState` request opens a numbered transaction. Registered
clients acknowledge it or push its deadline out; it completes inline, on the last acknowledgement,
on timeout, or is revoked by a newer request. `ModeChange.dfy` is this protocol as a machine on
values, with one atomic step for each entry point (the source serialises them by `_apiLock` and
`selfLock`). A request is two steps, up to the creation of its controller and from its call of
`Schedule`, because acknowledgements and delays may come in between. The step's `Env` holds what
the environment answers. `ModeChangeInvariants.dfy` proves the invariant, `ModeChangeSteps.dfy` what each
step does, by conditions that can be read before it, and `ModeChangeTheorems.dfy` the promises over runs;
`AckController.dfy` and `PowerManager.dfy` are the classes, whose methods are proved to be the machine's
steps, so that a manager that a run reaches stays one and all promises hold of it; that includes the two
entry points that save the settings, power state and all, for another reason.

**Settings and boot.** `Settings.dfy` has the 32-byte record byte by byte, the healing load and the
RAM copy; `SettingsStore.dfy` the objects and files; `PowerController.dfy` the agreement of memory,
file and platform. Whether a file can be opened and written is answered anew for each access.

**Thermal protection.** `Thermal.dfy` says what the zone flags and monitor times mean in terms of
the sampled temperatures, and that deep sleep comes before reboot; `Declock.dfy` what the CPU ladder
guarantees; `ThermalController.dfy` is the polled object.

**Deep sleep.** `DeepSleep.dfy` and `DeepSleepController.dfy`: retries, delay job, one outcome for
each activation. Retry loops and delay jobs run on threads of the worker pool, so each attempt is a step
and any other step may come between two of them; the object's loop is proved for all of these.

**ARC/eARC audio.** `Arc.dfy` is the machine of nineteen handlers that share the connection, routing,
short-audio-descriptor (SAD), detection and CEC flags. `ArcFrames.dfy` says what each kind of handler
does and leaves alone, `ArcInvariants.dfy` what every run keeps. `ArcFlags.dfy` defines for each flag on
its own by what, when and to what it changes, and `ArcHandlers.dfy` proves that the handlers, which
change several each, agree with all of these in every run. `ArcTheorems.dfy` has the notifications,
audio being routed in bounded time, and detection, `ArcDescriptors.dfy` whose descriptors the port gets,
`ArcRouting.dfy` the type of device that audio is routed for, and `ArcPower.dfy` whether the device is
ever confirmed to be on. `DisplaySettings.dfy` is the object: it is always where the run of its past
events leads, so every statement about runs is one about it.

**FPS statistics and file move.** `FrameRate.dfy` relates the running figures to the samples of the
collection window; `MoveFile.dfy` is the copy loop with short reads and writes.

Integers are mathematical except where the width shows: the client id is a wrapping 32-bit counter and
the settings fields are 32-bit words in little-endian order. Times are whole milliseconds (power modes)
or seconds (thermal protection) of a clock that the environment moves.

## Where the model follows the code against its documentation, or an expectation fails

- `PowerManager/AckController.h:67,302` say that the handler is not called on destruction; lines
  305-315 call it, as revoked.
- `PowerManager/AckController.h:243` asserts a handler that lines 248-254 do without; the model has
  the branch. Delays before Schedule are accepted from anyone.
- The controller stays after its transaction ended, so a repetition of a failed request is ignored
  (`FailedTransitionSwallowsRetry`), and a request for the current state does not cancel a pending
  transition (`CurrentStateRequestKeepsPending`).
- Client ids repeat once the counter has gone round (`ClientIdsAreDistinctUntilWrap`).
- `SaveThenLoad` holds for version 1 only: a settings object whose file could not be opened at load
  keeps an invalid version and saves it, and a reload then yields the default state although every save
  succeeded (`FileAgreesExactlyWhen`).
- A negative delay is converted to unsigned milliseconds and moves the deadline far ahead
  (`DelayIsLiteralExactlyWhen`).
- A failed attempt ends "in progress" although four more may follow, and deactivation does not stop them,
  so the device may sleep after it was woken up (`DeactivationStopsExactlyWhen`), and a second activation
  may leave two delay jobs (`DelayJobIsReplacedExactlyWhen`, `TwoDelayJobs`).
- The deep sleep controller never stores its network standby argument
  (`StandbyIsHonouredExactlyWhenOff`), and a configured delay outlives its file
  (`DelayedExactlyWhenEverConfigured`).
- Ordered thresholds do not suffice for deep sleep to precede reboot
  (`DeepSleepComesFirstExactlyWhenCovered`); the built-in tables do. With the first table the grace period
  that `PowerManager/ThermalController.h:63-65` describes is never started (`StandardRebootsAreImmediate`).
- The port's own hot-plug events move the notified flag apart from the connection (`NextTellsOnce`); a
  granted port-enable request may never route (`EnableCanStall`); audio may be routed for a device that
  is gone (`RoutedWithoutDevice`).
- Descriptors of an earlier connection may reach the port, because most ways to disconnect do not forget
  them (`SecondConnectionGetsFirstDescriptors`), and one report may be followed by a second of the same device
  (`SecondRequestDoubles`); `PortGetsOwnDescriptorsExactlyWhen` has the exact condition for both.
- The SAD timer and a SAD report route audio as for an ARC device whatever the device is, and power-off
  switches it off so (`NextRoutesDevice`, `SwitchOffNamesTypeExactlyWhen`, `EarcIsRoutedAsArc`).
- The power timer never asks a device again that reported being on before it was told to switch on, and
  until it reports anew its initiations are ignored (`ExpiriesConfirmExactlyWhen`, `ReportedDeviceIsNeverConfirmed`).
- The FPS minimum of a fresh window is never above 60, even if no sample is as low (`ReportedExtremes`).

## Model

| member | source | states |
|---|---|---|
| `ModeChangeTheorems.NotificationsFormChain` | PowerManager/PowerManagerImplementation.cpp:299-320 | In every run the mode-changed notifications form a chain: the first starts at the boot state, each starts where the one before ended, none repeats a state; GetPowerState reports exactly the last one |
| `ModeChangeTheorems.HandlersRunExactlyOnce` | PowerManager/AckController.h:104-134 | In every run each completion handler given to Schedule has run exactly once, except that of the running transaction, which has not run; references and lock acquisitions balance up to the requests under way |
| `ModeChangeTheorems.LockDiscipline` | PowerManager/PowerManagerImplementation.cpp:354-463 | Each SetPowerState call takes the lock once and releases it once: in its prologue if it opens no transaction, else in its Schedule, and in no other step |
| `ModeChangeTheorems.CommitCondition` | PowerManager/PowerManagerImplementation.cpp:433-453 | The device changes only at Schedule with nothing to wait for, on the last awaited client's acknowledgement or removal, at a timeout not before any accepted deadline, or by a save for other settings, which touches the file only |
| `ModeChangeTheorems.DeadlineIsLatest` | PowerManager/AckController.h:239-283 | The deadline of a running transaction is the greatest of creation time, Schedule's and every accepted delay, before or after Schedule, and the timer job is armed for it |
| `ModeChangeTheorems.CommitsAreJustified` | PowerManager/AckController.h:189-229 | In every run a committed completion was not revoked and was synchronous, had an empty pending set, or ran at or after its deadline; the notifications are exactly those of the committed completions |
| `ModeChangeTheorems.RevokedNeverCommits` | PowerManager/AckController.h:305-319 | In every run a transaction whose handler ran as revoked never commits, then or later |
| `ModeChangeTheorems.TimeoutEndsTransition` | PowerManager/AckController.h:208-226 | From any running transaction, waiting until its deadline and running the timer ends it with one more completion |
| `ModeChangeTheorems.SyncWakeupIsImmediate` | PowerManager/PowerManagerImplementation.cpp:413-449 | A deep-to-light-sleep request completes inside Schedule and frees the lock, whoever is still awaited and whatever delays were cached; if the platform accepts it is committed and notified |
| `ModeChangeTheorems.TimerWakeupEndsInLightSleep` | PowerManager/PowerManagerImplementation.cpp:927-936 | The request made on a deep-sleep timer wakeup opens a transaction exactly unless the latest one had that target, and then ends with the device in light sleep and notified |
| `ModeChangeTheorems.DeepSleepFollowsNotification` | PowerManager/PowerManagerImplementation.cpp:314-317 | In every run deep sleep was activated exactly as often as a change to it was notified |
| `ModeChangeTheorems.AwaitedClientsAreRegistered` | PowerManager/PowerManagerImplementation.cpp:405-411 | In every run a controller awaits registered clients only, a running one awaits someone, and client names are unique |
| `ModeChangeTheorems.ClientIdsAreDistinctUntilWrap` | PowerManager/PowerManagerImplementation.cpp:879-881 | The client ids handed out in a run are pairwise distinct if and only if no more than 2^32 were handed out |
| `ModeChangeTheorems.RequestOpensExactlyWhen` | PowerManager/PowerManagerImplementation.cpp:368-411 | A request opens a transaction if and only if it changes the state, no young deep sleep is in progress and the latest controller has another target; it then awaits every registered client and revokes the running transaction; otherwise controller and completions stay |
| `ModeChangeTheorems.FailedTransitionSwallowsRetry` | PowerManager/PowerManagerImplementation.cpp:392-398 | In every run, whichever step completed a transaction that could not be committed, the device is unchanged and the same request again only takes and releases the lock and, from deep sleep, wakes up, because the controller is still there |
| `ModeChangeTheorems.SetDeviceKeepsSync` | PowerManager/PowerController.cpp:106-128 | From agreeing memory, file and platform, SetPowerState leaves them agreeing if and only if the platform refused or deep sleep is overridden, or the file was written by settings of the valid version, or what a reload yields instead is the same state |
| `ModeChangeTheorems.FileAgreesExactlyWhen` | PowerManager/PowerController.cpp:106-128 | In every run, saves for other settings included, from agreeing memory and platform these two always agree and are what the notifications led to; the file agrees as well if and only if, where the present state was written since it was committed, the settings are of a valid version or that state is the default, and otherwise what the file holds instead is the same state |
| `ModeChangeTheorems.FreshExactlyWhenWritten` | PowerManager/PowerController.cpp:106-162 | In every step the present state becomes one written to the file exactly by a commit or another save that is written, and one not written exactly by a commit that is not |
| `ModeChangeTheorems.StaleAcknowledgementsChangeNothing` | PowerManager/AckController.h:104-134 | Any number of acknowledgements of other transactions than the current one leave the whole machine as it is |
| `ModeChangeTheorems.DelayPostponesExactlyWhen` | PowerManager/AckController.h:239-283 | In every run a delay moves the deadline of a running transaction, and the timer job with it, if and only if an awaited client of that transaction asks for a later one, and then to the instant asked for; it never moves it back |
| `ModeChangeTheorems.DelayIsLiteralExactlyWhen` | PowerManager/AckController.h:245-248 | An accepted delay asks for the deadline it names if and only if it is not negative and fits 32 bits of milliseconds; a negative one asks for one far ahead |
| `ModeChangeSteps.CompletionsCommitExactlyWhen` | PowerManager/PowerManagerImplementation.cpp:433-453 | In every run each step ends exactly the transaction that a guard read before it says: the last answer, the last awaited client leaving, the timer, a newer request, or Schedule with nothing to wait for; its completion commits if and only if it is not revoked, the platform accepts and deep sleep is not overridden, and if and only if it commits memory, platform, history and a written file take the target, one notification is sent and deep sleep is told |
| `ModeChangeSteps.GrantedTransitionTakesEffect` | PowerManager/PowerManagerImplementation.cpp:413-463 | In every run, Schedule with nobody awaited or a synchronous request, the last acknowledgement, the last removal and the timer each leave the device in the target with one notification if the platform accepts without override, and otherwise as it was; the transaction has then ended |
| `ModeChangeSteps.ControllerFollowsExactly` | PowerManager/AckController.h:90-283 | In every run each step leaves a controller that awaits exactly those of before without the client that answered this transaction or left, running or not; its deadline is the later of the old one and the one asked for, its timer is armed for it from Schedule to the end; a request that needs one opens a controller that awaits every registered client |
| `ModeChangeSteps.DeadlinesFollow` | PowerManager/AckController.h:239-283 | The deadlines recorded, of which the controller's is the latest, are exactly those set since the transaction was opened: its creation, Schedule's and every accepted delay |
| `ModeChangeSteps.PendingAreTheUnheard` | PowerManager/AckController.h:104-134 | In every run the current transaction awaits exactly the clients registered when it was opened, minus those that answered it or left since |
| `ModeChangeSteps.NobodyIsForgotten` | PowerManager/AckController.h:189-201 | In every run an asynchronous transaction that ends neither revoked nor timed out has every client it called answered or gone |
| `ModeChangeSteps.WakeupsAreTheirRequests` | PowerManager/PowerManagerImplementation.cpp:374-388 | Over every run deep sleep is deactivated once for each request that leaves it, or finds a repeated target from it, outside the transient interval |
| `ModeChangeSteps.CountersFollowExactly` | PowerManager/PowerManagerImplementation.cpp:354-463 | In every run lock, deactivation, schedule and clock change in exactly the steps that their guards say |
| `ModeChangeSteps.ClientsFollowExactly` | PowerManager/PowerManagerImplementation.cpp:863-925 | A name is registered if and only if it is new and not empty, under the next id in 32 bits, all others staying; a client is forgotten if and only if it leaves |
| `ModeChangeSteps.AnswersExactly` | PowerManager/PowerManagerImplementation.cpp:826-861 | An acknowledgement is accepted if and only if the transaction it names awaits the client, a delay in that case or before the transaction runs, a removal if and only if the client is registered |
| `ModeChangeSteps.DeviceAnswersExactly` | PowerManager/PowerController.cpp:106-128 | A change is refused with its own code by the override, then by the platform, with no effect, and otherwise made |
| `ModeChangeSteps.SaveTouchesFileOnly` | PowerManager/PowerController.cpp:135-162 | A save for another setting writes the present state if it can and changes nothing else |
| `ModeChangeInvariants.NextKeepsInv` | PowerManager/PowerManagerImplementation.cpp:342-468 | Every step keeps the protocol invariant: a running controller captured the stored state and another target, its deadlines, its timer, the chain of notifications, the completion log and the reference and lock balances |
| `ModeChangeInvariants.RunKeepsClients` | PowerManager/PowerManagerImplementation.cpp:863-925 | Over every run client names are unique and not empty, and the k-th id handed out is k modulo 2^32 |
| `AckControllers.AckController.AckAwait` | PowerManager/AckController.h:90-94 | Adds the client to those awaited and nothing else |
| `AckControllers.AckController.Ack` | PowerManager/AckController.h:104-134 | Accepted if and only if the transaction awaits the client, of whom alone it is then rid; the handler runs, as neither timed out nor revoked, if and only if that was the last one of a running transaction |
| `AckControllers.AckController.Schedule` | PowerManager/AckController.h:189-229 | Runs the handler at once when nobody is awaited or the offset is 0, else starts waiting until the later of the offset and the cached deadline |
| `AckControllers.AckController.Timeout` | PowerManager/AckController.h:203-226 | The timer job ends a running transaction with the handler told of the timeout |
| `AckControllers.AckController.Reschedule` | PowerManager/AckController.h:239-283 | Before Schedule caches the later deadline from anyone; when running accepts only an awaited client of this transaction, and never moves the deadline back; the offset is converted to an unsigned 32-bit number |
| `AckControllers.AckController.Revoke` | PowerManager/AckController.h:305-319 | Destruction stops a running transaction, cancels its timer and runs the handler as revoked |
| `PowerManagers.PowerManager.AddPowerModePreChangeClient` | PowerManager/PowerManagerImplementation.cpp:863-896 | Refuses an empty name, returns the id of a known name, otherwise registers the name under the next id |
| `PowerManagers.PowerManager.FindClient` | PowerManager/PowerManagerImplementation.cpp:874-877 | Finds an id registered under the name if and only if there is one |
| `PowerManagers.PowerManager.RemovePowerModePreChangeClient` | PowerManager/PowerManagerImplementation.cpp:898-925 | Forgets a registered client and acknowledges for it; is the protocol's removal step, the completion it may cause included |
| `PowerManagers.PowerManager.PowerModePreChangeComplete` | PowerManager/PowerManagerImplementation.cpp:826-843 | Is the protocol's acknowledgement step, with the completion it may cause, and keeps the manager reachable |
| `PowerManagers.PowerManager.DelayPowerModeChangeBy` | PowerManager/PowerManagerImplementation.cpp:845-861 | Is the protocol's delay step |
| `PowerManagers.PowerManager.SetPowerStatePrologue` | PowerManager/PowerManagerImplementation.cpp:342-411 | Is the protocol's request step: lock, checks, wakeup from deep sleep, destruction of the old controller, creation of the new one |
| `PowerManagers.PowerManager.SetPowerStateSchedule` | PowerManager/PowerManagerImplementation.cpp:433-463 | Is the protocol's Schedule step, the lock release of an asynchronous request included |
| `PowerManagers.PowerManager.CompletionHandler` | PowerManager/PowerManagerImplementation.cpp:434-453 | Commits if and only if not revoked, accepted by the platform and not overridden; then drops the reference and, for a synchronous request, the lock |
| `PowerManagers.PowerManager.SetDevicePowerState` | PowerManager/PowerManagerImplementation.cpp:299-320 | On platform success commits, notifies and for deep sleep activates it; on failure changes nothing |
| `PowerManagers.PowerManager.GetPowerState` | PowerManager/PowerManagerImplementation.cpp:284-297 | Reports the pair of the last notification, for every reached manager that notified |
| `PowerManagers.PowerManager.SetNetworkStandbyMode` | PowerManager/PowerManagerImplementation.cpp:637-657 | Is the protocol's save step exactly when the mode is new and no supported source refuses it, and otherwise changes nothing; keeps the manager reachable |
| `PowerManagers.PowerManager.SetDeepSleepTimer` | PowerManager/PowerManagerImplementation.cpp:568-583 | Takes a time over a day for none, and is two of the protocol's save steps; keeps the manager reachable |
| `PowerManagers.PowerManager.AckTimer` | PowerManager/AckController.h:203-226 | Is the protocol's timer step on the current controller |
| `PowerControllers.BootAgreement` | PowerManager/PowerController.cpp:70-104 | After boot memory and platform agree if and only if they did as loaded or the platform could be read; the file agrees as well if and only if it holds the state settled on, or that state was written in a valid version, or is what a reload yields anyway |
| `PowerControllers.PowerController.constructor` | PowerManager/PowerController.cpp:42-104 | Loads the settings and synchronises them with the platform; if the platform could be read and the file opened and written, all three copies agree |
| `PowerControllers.PowerController.Init` | PowerManager/PowerController.cpp:70-104 | Leaves exactly the device state that boot synchronisation defines |
| `PowerControllers.PowerController.SetPowerState` | PowerManager/PowerController.cpp:106-128 | Refuses deep sleep under the override, changes nothing on platform failure, otherwise stores, saves and remembers the previous state |
| `PowerControllers.PowerController.SetWakeupSourceConfig` | PowerManager/PowerController.cpp:170-188 | Fails if and only if some supported source was refused, however many were tried after it |
| `PowerControllers.PowerController.SetNetworkStandbyMode` | PowerManager/PowerController.cpp:135-162 | Changes flag and file only for a new mode that no supported source refused; succeeds then if and only if the file could be opened and written |
| `PowerControllers.PowerController.SetDeepSleepTimer` | PowerManager/PowerController.cpp:235-240 | Sets the wakeup time as an unsigned number and saves twice, power state included; succeeds whatever became of the saves |
| `Settings.SaveThenLoad` | PowerManager/Settings.cpp:141-169 | Saving over any old contents and loading returns the same settings from the unchanged file if and only if the version is 1; any other version is replaced by defaults; a save that fails changes nothing a load yields |
| `Settings.LoadIsIdempotent` | PowerManager/Settings.cpp:187-223 | After a load of any bytes whatever, written back or not, any later load that opens the file gives the same settings; once written the file stays the same; bytes beyond the record survive |
| `Settings.StateCodesInvert` | PowerManager/Settings.cpp:55-99 | The two state conversions are inverse on every state |
| `Settings.FileLayout` | PowerManager/Settings.cpp:57-77 | The record's bytes: little-endian words at their offsets, the numbers that stand for the states, the length, zeroed gaps |
| `Settings.UnreadableYieldsDefaults` | PowerManager/Settings.cpp:187-223 | A file that cannot be opened or read yields ON, eight hours and no network standby, of valid version if and only if it was opened |
| `Settings.RestartYieldsLastWritten` | PowerManager/Settings.cpp:257-272 | After any changes memory holds the last one, and a restart that can open the file yields exactly the last one that was written, or what the file held before |
| `Settings.EncodedFields` | PowerManager/Settings.cpp:143-155 | The written record decodes to its fields, with version and length where the header is read, whatever follows it |
| `Settings.BeforeRebootIsStable` | PowerManager/Settings.cpp:225-240 | Within one boot whose first load could write the RAM copy, the state before reboot stays the one of that load, over any changes and any restarts that can open the copy |
| `Settings.RestartRemembersExactlyWhen` | PowerManager/Settings.cpp:225-240 | After a first load that created the copy, a restart reports that load's state if and only if the copy was written and the restart can open it, or it is the default state anyway |
| `Settings.SessionKeepsCopy` | PowerManager/Settings.cpp:225-240 | What the RAM copy yields, once there is one, is never altered by restarts or changes, and the state before reboot is what the last restart could read of it |
| `Settings.ChangesLeaveCopy` | PowerManager/Settings.cpp:257-272 | Changes never create the RAM copy: a first load that could not leaves the next restart to be the first |
| `SettingsStore.PowerSettings.LoadV1` | PowerManager/Settings.cpp:107-139 | Takes all fields over if and only if the length field fits and the whole record is there, else none |
| `SettingsStore.PowerSettings.Save` | PowerManager/Settings.cpp:257-272 | Writes the record over the start of the file, leaving its tail; fails if and only if the file cannot be opened or written, and may then have created it empty |
| `SettingsStore.LoadFile` | PowerManager/Settings.cpp:187-223 | Loads one file, and writes defaults into one it could not read |
| `SettingsStore.Load` | PowerManager/Settings.cpp:187-250 | Loading the persistent file also fixes the state before reboot by creating or reading the RAM copy; loading the RAM file touches nothing else |
| `Thermal.ZoneIsEpisode` | PowerManager/ThermalController.cpp:200-242 | The zone flag is on exactly when some sample in [concern, critical) has only samples keeping the zone after it, and the monitor time is that of the earliest such sample |
| `Thermal.ZoneIsEpisodeExactlyWhenSane` | PowerManager/ThermalController.cpp:200-242 | The flag means this for every sample sequence if and only if safe <= concern or no temperature can enter the zone |
| `Thermal.GraceOverMeansOldEpisode` | PowerManager/ThermalController.cpp:228-241 | The graced action happens exactly when a sample that old belongs to the episode |
| `Thermal.RebootIsPrecededByDeepSleep` | PowerManager/ThermalController.cpp:437-443 | For every run of polls, with deep-sleep thresholds at or below the reboot ones, covered, and equal grace intervals, each thermal reboot has a deep-sleep request no earlier than the reboot zone's entry and no later than the same poll |
| `Thermal.DeepSleepComesFirstExactlyWhenCovered` | PowerManager/ThermalController.cpp:245-290 | For all thresholds with deep sleep at or below reboot: deep sleep precedes every reboot in every run if and only if the deep-sleep safe or critical level is at or below the reboot concern level, or the critical one at or below the reboot safe level, or the tables are equal |
| `Thermal.UncoveredRebootsUnannounced` | PowerManager/ThermalController.cpp:245-290 | For all other ordered thresholds four polls lead to a reboot without a deep-sleep request since the reboot zone was entered |
| `ThermalControllers.BuiltInTablesAnnounce` | PowerManager/ThermalController.h:60-128 | With either built-in table no run of polls reboots unannounced |
| `ThermalControllers.StandardRebootsAreImmediate` | PowerManager/ThermalController.h:60-67 | With the first table every thermal reboot is immediate and happens exactly at enabled polls at or above 120 degrees: its graced branch is never taken |
| `Declock.RaiseNeedsCoolInterval` | PowerManager/ThermalController.cpp:321-377 | For every run with a monotone clock the CPU speed rises only if no sample of the last grace interval was hot, and from the middle to the normal speed only if all of them were safe |
| `Declock.SpeedChangesExactlyWhen` | PowerManager/ThermalController.cpp:293-380 | For every run with a monotone clock and every sample: the speed rises if and only if it was lowered, the sample is not hot, it is safe or the speed was minimal, and a grace interval passed since every sample that restarts the wait; it falls if and only if the sample is critical and the speed not minimal, or hot and the speed normal; and to which speed |
| `Declock.SpeedComesBack` | PowerManager/ThermalController.cpp:334-377 | For every run with a monotone clock the speed is normal after a grace interval of safe samples, and not minimal after one without a hot sample |
| `Declock.RaisesAreApart` | PowerManager/ThermalController.cpp:334-377 | Any two speed raises are at least the grace interval apart |
| `Declock.RaisesAreFew` | PowerManager/ThermalController.cpp:334-377 | A run of length L raises the speed at most L / grace + 1 times |
| `Declock.HeatActsAtOnce` | PowerManager/ThermalController.cpp:305-332 | A hot sample leaves the normal speed, a critical one leads to the minimum, and only hot samples lower the speed |
| `Declock.MonitorRemembersSamples` | PowerManager/ThermalController.cpp:293-380 | The monitor time is never older than a hot sample nor, at the middle speed, than one above safe |
| `ThermalControllers.ThermalController.RebootIfNeeded` | PowerManager/ThermalController.cpp:200-242 | Notes the sample unless disabled and requests exactly what the critical threshold and the zone decide |
| `ThermalControllers.ThermalController.DeepSleepIfNeeded` | PowerManager/ThermalController.cpp:245-290 | Notes the sample unless disabled and requests exactly what the critical threshold and the zone decide |
| `ThermalControllers.ThermalController.DeclockIfNeeded` | PowerManager/ThermalController.cpp:293-380 | Keeps speed and monitor time those of the sample history; disabled, it changes neither; enabled, the speed is normal after a grace interval of safe samples, and not minimal after one without a hot sample |
| `ThermalControllers.ThermalController.Poll` | PowerManager/ThermalController.cpp:398-454 | A failed reading does nothing; otherwise both monitors act exactly as the run of polls says, deep sleep no later than reboot |
| `ThermalControllers.ThermalController.SetOvertempGraceInterval` | PowerManager/ThermalController.cpp:101-123 | Refuses a negative interval, else gives it to both monitors |
| `DeepSleeps.EveryActivationIsResolvedOnce` | PowerManager/DeepSleepController.cpp:272-402 | In every run, whatever other threads do between the attempts, each accepted activation is in its retry loop, or a scheduled delay job, or has one outcome that no later step changes; it tried at most 5 times (once when delayed), failed if and only if all tries failed, was revoked if and only if it tried nothing, and notified the user's wakeup or the timer's if and only if the last try succeeded with that answer; a timer wakeup reports the timeout of the activation accepted last by then |
| `DeepSleeps.RetriesGoOnExactlyWhen` | PowerManager/DeepSleepController.cpp:299-342 | From any state with the invariant and over any steps, a retry loop goes on if and only if all its attempts failed and they are fewer than five: neither a deactivation nor another activation ends it |
| `DeepSleeps.DeactivationStopsExactlyWhen` | PowerManager/DeepSleepController.cpp:229-245 | In every run, after a deactivation and without a new activation the platform is never asked to sleep again if and only if no retry loop is under way and no other delay job than the one cancelled is scheduled |
| `DeepSleeps.DelayJobIsReplacedExactlyWhen` | PowerManager/DeepSleepController.cpp:363-402 | In every run with a delay job to cancel, another activation replaces it while it stays scheduled if and only if an attempt was made since it was armed; otherwise the activation changes nothing |
| `DeepSleeps.TwoDelayJobs` | PowerManager/DeepSleepController.cpp:391-399 | Such a state is reached, and two delay jobs are then scheduled, of which one can be cancelled |
| `DeepSleeps.DelayJobIsSafeAfterRetries` | PowerManager/DeepSleepController.cpp:363-402 | In every run, once a delay was configured and no retry loop is left, a delay job is never replaced from then on, unless it already could be |
| `DeepSleeps.ActivationIsAcceptedExactlyWhen` | PowerManager/DeepSleepController.cpp:363-402 | An activation is accepted if and only if deep sleep is not in progress, with the timeout asked for unless a file names another; it is then delayed or starts to try, and nothing else changes |
| `DeepSleeps.AttemptEndsLoopExactlyWhen` | PowerManager/DeepSleepController.cpp:299-342 | A round of a loop completes deep sleep if and only if it succeeds, and ends the loop if and only if it does or is the fifth; other loops, jobs and outcomes stay |
| `DeepSleeps.DelayJobTriesOnce` | PowerManager/DeepSleepController.cpp:272-297 | A delay job makes one attempt and has its outcome; the job that could be cancelled no longer can |
| `DeepSleeps.DeactivationCancelsItsJob` | PowerManager/DeepSleepController.cpp:229-245 | A deactivation revokes the delay job it knows of and nothing else, and starts over |
| `DeepSleeps.StandbyIsHonouredExactlyWhenOff` | PowerManager/DeepSleepController.cpp:299-312 | In every run the platform is asked for network standby as the activation asked if and only if the activation asked for it to be off |
| `DeepSleeps.DelayedExactlyWhenEverConfigured` | PowerManager/DeepSleepController.cpp:375-390 | In every run an activation is delayed if and only if it or an earlier accepted one found a nonzero delay file, and the delay in force is the one found last |
| `DeepSleepControllers.DeepSleepController.PerformActivate` | PowerManager/DeepSleepController.cpp:363-402 | Is the activation step of the run, followed, when it is accepted and no delay was ever configured, by its whole retry loop with the steps of others in each sleep; the activation then has its outcome, with the attempts up to the first success or the fifth |
| `DeepSleepControllers.DeepSleepController.EnterDeepSleepNow` | PowerManager/DeepSleepController.cpp:299-342 | Whatever other threads do during its sleeps, tries until the first success, at most five times, and gives its activation one outcome |
| `DeepSleepControllers.DeepSleepController.EnterDeepSleepDelayed` | PowerManager/DeepSleepController.cpp:272-297 | Is the delay-job step of the run: one attempt, without network standby, and one outcome |
| `DeepSleepControllers.DeepSleepController.Deactivate` | PowerManager/DeepSleepController.cpp:229-245 | Is the deactivation step of the run: cancels the delay job it knows of, which is then resolved as revoked, and starts over |
| `ArcInvariants.FlagsMeanWhatTheySay` | DisplaySettings/DisplaySettings.cpp:3975-5139 | In every run: the notified flag is the polarity of the last HDMI_ARC0 event and the routing flag that of the last routing command; connected implies a device type; a retrigger implies SAD requested, never received; cleared implies an empty list; updated implies the port was given the list last; no more reports are accepted than were asked for |
| `ArcInvariants.NextKeepsInv` | DisplaySettings/DisplaySettings.cpp:3975-5139 | Each of the nineteen handlers keeps the invariant behind these facts, from any state that has it |
| `ArcTheorems.ConnectionIsToldOnce` | DisplaySettings/DisplaySettings.cpp:4618-5139 | In every run without hot-plug events of the ARC audio port itself, observers hear of each connection change exactly once, alternating, and the notified flag is the connected flag |
| `ArcTheorems.NextTellsOnce` | DisplaySettings/DisplaySettings.cpp:5869-5887 | A step keeps this if and only if it is not such a hot-plug event |
| `ArcTheorems.RoutedWithinTwoExpiries` | DisplaySettings/DisplaySettings.cpp:4192-4238 | With a device connected, audio not routed and the SAD timer armed, audio is routed by the second expiry, or the first if descriptors were received or asked for again, whatever uninterrupting events come between; until then the timer stays armed |
| `ArcTheorems.AudioIsRoutedInTime` | DisplaySettings/DisplaySettings.cpp:4192-4238 | The same from the end of any run |
| `ArcTheorems.TimerAdvances` | DisplaySettings/DisplaySettings.cpp:4192-4238 | An expiry routes audio if and only if descriptors were received or already asked for again; otherwise it asks again and re-arms |
| `ArcTheorems.EnableRoutesOrWaits` | DisplaySettings/DisplaySettings.cpp:4028-4136 | In every run a granted enable request leaves audio routed or the SAD timer armed for it, if and only if one of both held before or the device is not an ARC one in pass-through or auto mode without SAD |
| `ArcTheorems.EnableCanStall` | DisplaySettings/DisplaySettings.cpp:4696-4751 | That exception is reached when a termination fails |
| `ArcTheorems.NextKeepsDevice` | DisplaySettings/DisplaySettings.cpp:4783-4825 | Routed audio always has a known device type, and the only step that breaks this is a SAD report arriving with the timer armed after the type was reset |
| `ArcTheorems.RoutedWithoutDevice` | DisplaySettings/DisplaySettings.cpp:5112-5136 | It is reached by disabling CEC while SAD is awaited, and no request to disable the port then stops the audio |
| `ArcDescriptors.PortGetsOwnDescriptorsExactlyWhen` | DisplaySettings/DisplaySettings.cpp:4776-4822 | In every run, at each of the four ways the port is given descriptors, it gets the joined reports taken since the list was last emptied; all are of the current connection if and only if every report taken before that connection began was followed by a forgetting step, and they are one report if and only if every earlier one was |
| `ArcDescriptors.RunFollows` | DisplaySettings/DisplaySettings.cpp:4754-4838 | In every run the list is the reports taken since it was last emptied, and empty, single or of this connection only exactly as the marks of the run say |
| `ArcDescriptors.NextIsMarked` | DisplaySettings/DisplaySettings.cpp:4618-5139 | The guard of each handler, read before it runs, tells exactly whether it begins a connection, appends a report, empties the list or leaves it alone |
| `ArcDescriptors.NextGives` | DisplaySettings/DisplaySettings.cpp:4195-4214 | The port is given the list by exactly these steps: an enable request or timer expiry that finds a report received, and a report that comes while audio is routed or awaited |
| `ArcDescriptors.DisconnectForgetsExactlyWhen` | DisplaySettings/DisplaySettings.cpp:4857-4880 | A disconnecting step empties the list if and only if it is a termination, an unplugged HDMI input, or the removal of a device whose SAD is not unknown; system audio off, CEC off, power off and a port query leave it |
| `ArcDescriptors.LastDisconnectDecides` | DisplaySettings/DisplaySettings.cpp:4857-4880 | In every run, when a step gives descriptors to the port and the last disconnect before the current connection found some on the list, the port gets only the current connection's if and only if that disconnect was a termination, an unplugged HDMI input, or the removal of a device whose SAD was not unknown |
| `ArcDescriptors.BeginsExactlyWhenConnecting` | DisplaySettings/DisplaySettings.cpp:4663-4668 | A disconnected device becomes connected by exactly the steps marked so |
| `ArcDescriptors.DescriptorsOutliveConnection` | DisplaySettings/DisplaySettings.cpp:4646-4653 | From any state with a received report, system audio off, power off or a port query and a new initiation lead to a new connection with the old list, and only the query makes it ask for its own |
| `ArcDescriptors.SecondConnectionGetsFirstDescriptors` | DisplaySettings/DisplaySettings.cpp:4646-4653 | Two such runs to their end: after system audio off or power off the port is given the first connection's descriptors in the second connection, whose device was never asked |
| `ArcDescriptors.SecondConnectionGetsBothDescriptors` | DisplaySettings/DisplaySettings.cpp:758-798 | The third to its end: after a port query the port is given the descriptors of both devices, the first one's first |
| `ArcDescriptors.SecondRequestDoubles` | DisplaySettings/DisplaySettings.cpp:4215-4223 | From any connected, unrouted state whose list the port already has, the SAD timer asks again and the port gets both reports |
| `ArcDescriptors.SecondRequestIsReached` | DisplaySettings/DisplaySettings.cpp:4192-4238 | Such a state is reached with the timer armed |
| `ArcTheorems.DetectionEndsInThree` | DisplaySettings/DisplaySettings.cpp:5049-5101 | While the detection timer stays armed, its counter counts exactly its expiries, and the third one at the latest stops it |
| `ArcTheorems.DetectionSettles` | DisplaySettings/DisplaySettings.cpp:5090-5095 | In every run, when an expiry stops the timer, the device type is known or ARC is initiated, and the counter is reset; an expiry asks the device to initiate ARC if and only if the tries are used up, the device is disconnected and not an eARC one, CEC is on and no initiation is under way |
| `ArcRouting.NextRoutesDevice` | DisplaySettings/DisplaySettings.cpp:4192-4238 | From any state with the invariant, audio routed for the type the device has stays so in a step if and only if the step, by its guard, is not one of four: SAD timer or SAD report routing a device that is not an ARC one, and detection timer or power status finding another type while old audio is still routed |
| `ArcRouting.RunRoutesDevice` | DisplaySettings/DisplaySettings.cpp:3975-5139 | Audio stays routed for the device's type over every run without such a step |
| `ArcRouting.SwitchOffNamesTypeExactlyWhen` | DisplaySettings/DisplaySettings.cpp:4378-4405 | When such audio is switched off, the command names the type it was routed for if and only if the port was disabled on request or the type is ARC: leaving ON always names ARC |
| `ArcRouting.EarcIsRoutedAsArc` | DisplaySettings/DisplaySettings.cpp:4783-4825 | An eARC device found while the SAD timer of an ARC connection runs is routed as an ARC one, by a run of the handlers |
| `ArcPower.ExpiriesConfirmExactlyWhen` | DisplaySettings/DisplaySettings.cpp:5254-5287 | A detected, unconfirmed device with the power timer armed is confirmed by expiries of that timer, and then within five of them, if and only if it is not known to be on already or the tries were used up before |
| `ArcPower.ConfirmedWithinFiveExpiries` | DisplaySettings/DisplaySettings.cpp:5234-5287 | While such a device is asked for, it is confirmed no later than by the expiry that uses up the five tries, whatever events come between, unless it is lost, the system leaves ON, a subscription fails or the ports are set up anew |
| `ArcPower.ReportedDeviceIsNeverConfirmed` | DisplaySettings/DisplaySettings.cpp:4632-4640 | The power timer never asks a device again that reported being on before the detection timer expired: no number of expiries changes the state, and every initiation is ignored |
| `ArcHandlers.FlagsFollowExactly` | DisplaySettings/DisplaySettings.cpp:3975-5139 | In every run each of the nineteen handlers changes each of the flags, the descriptor list, the timers, what is known of the device, the notifications, the routing command and the messages to the device exactly when, and to what, a definition for that flag alone says |
| `ArcRouting.LeavingOnEndsEverything` | DisplaySettings/DisplaySettings.cpp:4364-4425 | Whatever the state, when the system leaves ON the device is disconnected and unrouted without a type, all three timers stop, and routed audio is switched off with an ARC command |
| `ArcDisplaySettings.DisplaySettings.SetEnableAudioPort` | DisplaySettings/DisplaySettings.cpp:3975-4190 | Is the enable step of the run; routes at once or leaves the timer armed, if and only if one of both held before or the device is not an ARC one in pass-through or auto mode without SAD; succeeds if and only if disabling, or enabling outside standby with a device connected |
| `ArcDisplaySettings.DisplaySettings.CheckSADUpdate` | DisplaySettings/DisplaySettings.cpp:4192-4238 | Is the SAD-timer step of the run; while audio is awaited, routes it if and only if one expiry was still needed, otherwise exactly one is left |
| `ArcDisplaySettings.DisplaySettings.OnShortAudioDescriptor` | DisplaySettings/DisplaySettings.cpp:4754-4838 | Is the SAD-report step of the run; while audio is awaited, never increases the expiries still needed |
| `ArcDisplaySettings.DisplaySettings.OnARCInitiation` | DisplaySettings/DisplaySettings.cpp:4618-4693 | Is the ARC-initiation step of the run; without port hot-plug events observers have then heard of each connection change once |
| `ArcDisplaySettings.DisplaySettings.OnARCTermination` | DisplaySettings/DisplaySettings.cpp:4696-4751 | Is the ARC-termination step of the run; without port hot-plug events observers have then heard of each connection change once |
| `ArcDisplaySettings.DisplaySettings.OnSystemAudioMode` | DisplaySettings/DisplaySettings.cpp:4841-4890 | Is the system-audio-mode step of the run; without port hot-plug events observers have then heard of each connection change once |
| `ArcDisplaySettings.DisplaySettings.OnAudioDeviceConnectedStatus` | DisplaySettings/DisplaySettings.cpp:4926-4977 | Is the device-status step of the run; without port hot-plug events observers have then heard of each connection change once |
| `ArcDisplaySettings.DisplaySettings.OnAudioDevicePowerStatus` | DisplaySettings/DisplaySettings.cpp:4979-5046 | Is the device-power-status step of the run; without port hot-plug events observers have then heard of each connection change once |
| `ArcDisplaySettings.DisplaySettings.CheckArcDeviceConnected` | DisplaySettings/DisplaySettings.cpp:5049-5101 | Is the eARC-detection step of the run; without port hot-plug events observers have then heard of each connection change once |
| `ArcDisplaySettings.DisplaySettings.OnCecEnabled` | DisplaySettings/DisplaySettings.cpp:5103-5139 | Is the CEC-status step of the run; without port hot-plug events observers have then heard of each connection change once |
| `ArcDisplaySettings.DisplaySettings.OnPowerModeChanged` | DisplaySettings/DisplaySettings.cpp:4364-4425 | Is the power-mode step of the run; leaving ON ends connection and routing, stops the timers and switches routed audio off with an ARC command; observers are told once as before |
| `ArcDisplaySettings.DisplaySettings.OnHdmiInEventHotPlug` | DisplaySettings/DisplaySettings.cpp:5972-6023 | Is the HDMI-input hot-plug step of the run; without port hot-plug events observers have then heard of each connection change once |
| `ArcDisplaySettings.DisplaySettings.OnAudioOutHotPlug` | DisplaySettings/DisplaySettings.cpp:5869-5887 | Is the audio-output hot-plug step of the run |
| `ArcDisplaySettings.DisplaySettings.SetSoundMode` | DisplaySettings/DisplaySettings.cpp:1455-1496 | Is the ARC part of a sound-mode change, a step of the run |
| `ArcDisplaySettings.DisplaySettings.GetConnectedAudioPorts` | DisplaySettings/DisplaySettings.cpp:758-798 | Is the reset of an unrouted connection by a query, and lists HDMI_ARC0 if and only if port and device are connected; observers are told once as before |
| `ArcDisplaySettings.DisplaySettings.InitAudioPorts` | DisplaySettings/DisplaySettings.cpp:383-477 | Is the ARC part of port initialisation of the run |
| `ArcDisplaySettings.DisplaySettings.OnTimer` | DisplaySettings/DisplaySettings.cpp:5205-5231 | Is the reconnection-timer step of the run, after its subscription attempt |
| `ArcDisplaySettings.DisplaySettings.CheckAudioDeviceDetectionTimer` | DisplaySettings/DisplaySettings.cpp:5234-5252 | Is the device-detection-timer step of the run |
| `ArcDisplaySettings.DisplaySettings.CheckAudioDevicePowerStatusTimer` | DisplaySettings/DisplaySettings.cpp:5254-5287 | Is the power-status-timer step of the run |
| `FrameRates.ReportIsOrdered` | FrameRate/FrameRateImplementation.cpp:532-545 | In every window with samples min <= average <= max |
| `FrameRates.AverageIsRounded` | FrameRate/FrameRateImplementation.cpp:532-545 | The reported average times the number of samples is at most their sum, and one more would exceed it; a window without samples reports -1, 60 and -1 |
| `FrameRates.ReportedExtremes` | FrameRate/FrameRateImplementation.cpp:513-516 | The maximum is a sample; the minimum is one if and only if the window was carried over or has a sample of at most 60, otherwise 60 is reported |
| `FrameRates.WindowsCarryOver` | FrameRate/FrameRateImplementation.cpp:541-555 | Each report opens a window that holds exactly the last sample of the previous one |
| `FrameRates.FrameRate.StartFpsCollection` | FrameRate/FrameRateImplementation.cpp:433-463 | Opens a fresh, empty window and starts the timer, with the running figures those of the window |
| `FrameRates.FrameRate.UpdateFps` | FrameRate/FrameRateImplementation.cpp:503-524 | Refuses negative figures; otherwise the sample joins the window, and the running figures stay those of the window |
| `FrameRates.FrameRate.OnReportFpsTimer` | FrameRate/FrameRateImplementation.cpp:532-556 | Reports the figures recomputed from the window's samples, ordered when there are any, and carries the last one over |
| `FrameRates.FrameRate.StopFpsCollection` | FrameRate/FrameRateImplementation.cpp:470-495 | Reports the unfinished window if and only if collection was on and it has samples |
| `FrameRates.FrameRate.SetCollectionFrequency` | FrameRate/FrameRateImplementation.cpp:299-322 | Refuses periods under 100 ms, else takes the period over |
| `MoveFiles.MoveFile` | helpers/UtilsFile.h:31-84 | For any pattern of short reads and writes: true if and only if the source existed, the destination did not, the one could be opened and the other created and no write took nothing; then the destination holds what was read until a read gave nothing (all of the source exactly when no read failed early) and the source is gone unless it cannot be deleted; otherwise the source is unchanged and no destination made here remains unless it cannot be deleted; the destination is never overwritten |
| `MoveFiles.WriteOut` | helpers/UtilsFile.h:60-72 | Writes the whole piece in as many steps as it takes, and fails if and only if a write took nothing |

## Left out

- ModeChangeTheorems.DelayIsLiteralExactlyWhen: the source multiplies seconds by 1000 as an `int`, which
  overflows from 2147484 seconds on and is then undefined; the model takes the product to wrap, in
  ModeChangeTheorems.DelayPostponesExactlyWhen as well.
- FrameRates.FrameRate.UpdateFps: totals are mathematical integers; the source's `int` total may overflow.
- MoveFiles.MoveFile: an early end of reading is indistinguishable from the end of the file in the
  source, so success is only as complete as the reads; directory creation is left out.
- PowerControllers.PowerController.SetWakeupSourceConfig: the platform's answers are given; which source
  they belong to is not modelled.
- Threads and data races: every entry point is one atomic step; the lock that `pollThermalLevels` keeps
  when it stops (`PowerManager/ThermalController.cpp:426-430`) and the queue between deep sleep activation
  and its execution are left out.
- Plugin life cycle, JSON-RPC and COM interfaces, logging, and the registration lists of notifications.
- Pre-change notifications, key codes and reasons of a request; only the transaction they announce is modelled.
- HAL, IARM and device-settings calls: their answers are parameters; a failed platform call is taken to
  change nothing; device exceptions in the ARC handlers are not modelled.
- Transaction ids do not wrap. The clock's addition of milliseconds is library code and not part of this
  model; it is taken to convert them to an unsigned 32-bit number.
- A short write of the settings record, which the source takes for success; the platform numbering of power
  states matters only in being distinct.
- The build with `PLATCO_BOOTTO_STANDBY`, and deep-sleep wakeup times from time zone and configuration.
- Thermal: temperature thresholds of the platform, RFC configuration, fractional degrees (the source
  truncates them), clock jumps, equal or zero configured CPU speeds, failed speed changes.
- DisplaySettings outside the ARC flags: volume and mute (with the mute key message), EDID, resolutions,
  audio and video settings; subscription to CEC events.
- FrameRate display mode calls and event dispatch; RebootController; DeviceInfo, DisplayInfo,
  DeviceDiagnostics, SystemServices, Warehouse, SystemMode and UserPreferences, which would add easier members.
