# Out-of-process object registry of `Communicator.h`

This project models the registry that the Communicator keeps of its remote
processes, as a sequential system in which every registry method is one
atomic step (the admin lock). It has five parts.

- **Launch options** (`LaunchOptions`, `NumberText`). A launched process is
  given a table of single-letter options that describe the `Object` to
  instantiate and the `Config` to host it with. `Encode` fills that table
  entry by entry. `Decode` reads it back as the child would, and it is the
  partner `Encode` is proved against.
- **Remote processes** (`Communicator.RemoteProcess`). A process moves
  between CONSTRUCTED, ACTIVE and DEACTIVATED. Each change of state is fanned
  out to the parent map's observers. Deactivation releases the channel.
  `QueryInterface` hands out the announced implementation once.
- **Termination escalation** (`Escalation`, `Communicator.ClosingInfo`). With
  `Destroy` corrected, a process that outlives its connection is checked 3 s
  later. (As written, `Destroy` hard-kills the process at once; see
  "## Findings".) It is then
  soft-killed, and hard-killed 6 s after that. If it still runs 8 s later,
  the timer drops the entry, and the dropped entry's destructor sends one
  last hard kill. Once the process has exited, its reference is released.
- **The registry** (`Communicator.RemoteProcessMap`). It holds processes by
  pid and an ordered list of observers. Its operations are:
  - register and unregister an observer (registering replays ACTIVE
    processes in pid order);
  - launch, destroy, look up and list processes;
  - accept announcements from processes.
- **The channel link** (`Communicator.ProcessChannelLink`,
  `Communicator.ProcessChannelServer`). A successful announcement binds the
  channel to the announcing pid. A close of that channel destroys the process
  once.

How the model stands in for the outside world:
- Observer callbacks are recorded in the map's `notifications` log.
- Kill requests sent to the operating system are recorded in each process's
  `kills` log.
- Whether the operating system still runs a process is its `alive` field.
- The destruction timer is the map's `timer` list of scheduled ClosingInfo
  entries.
- Times are milliseconds.
- `RegistrySpec` defines the fan-out, replay, ascending-key and removal
  functions that the methods are proved against.

## Model

| member | source | states |
|---|---|---|
| LaunchOptions.Encode | Source/com/Communicator.h:241-278 | Given a non-empty locator, class name and connector, the options run the host application and hold exactly the option table of the Object and Config. |
| LaunchOptions.AddIdentity | Source/com/Communicator.h:253-261 | Adds `v` only for a version other than `~0`, and `u`/`g` only when non-empty. The required entries are kept and no path entry is added. |
| LaunchOptions.AddStoragePaths | Source/com/Communicator.h:262-270 | Adds `p`, `s` and `d` exactly for the non-empty paths. The required and identity entries are kept. |
| LaunchOptions.AddCodePaths | Source/com/Communicator.h:271-276 | Adds `a` and `m` exactly for the non-empty paths. All earlier entries are kept. |
| LaunchOptions.LetterInjective | Source/com/Communicator.h:249-275 | Distinct keys are passed under distinct letters (`l` to `m`). |
| LaunchOptions.KeysPresent | Source/com/Communicator.h:249-276 | `l`, `c`, `r` and `i` are always set. `v` is set iff the version is not `~0`. Each string key is set iff its value is non-empty. |
| LaunchOptions.EncodesEveryKey | Source/com/Communicator.h:249-276 | Every key holds its table entry, or is absent when the entry is left out. |
| LaunchOptions.DecodeEncoded | Source/com/Communicator.h:241-278 | Reading the options back gives exactly the Object and Config they were built from. |
| LaunchOptions.DecodeObjectEncoded | Source/com/Communicator.h:249-261 | The object entries read back as the Object, including both numbers. |
| LaunchOptions.DecodeConfigEncoded | Source/com/Communicator.h:243-276 | The command and the config entries read back as the Config. |
| LaunchOptions.EncodingUnique | Source/com/Communicator.h:241-278 | The options are determined by the Object and Config. |
| LaunchOptions.ReadNumberText | Source/com/Communicator.h:252-254 | A `uint32_t` written as decimal text reads back as itself. |
| NumberText.ParseText | Source/com/Communicator.h:252-254 | Parsing the decimal text of a number gives the number back. |
| NumberText.TextDigits | Source/com/Communicator.h:252-254 | The decimal text is a non-empty run of digits, with a leading zero only for 0. |
| NumberText.TextInjective | Source/com/Communicator.h:252-254 | Distinct numbers have distinct texts. |
| Communicator.RemoteProcess.Connected | Source/com/Communicator.h:210-217 | A connected process starts ACTIVE, holds its channel and one reference, and has no returned interface. |
| Communicator.RemoteProcess.Launched | Source/com/Communicator.h:218-227 | A launched process starts CONSTRUCTED, without a channel, with one reference. |
| Communicator.RemoteProcess.CreateConnected | Source/com/Communicator.h:230-240 | The new process is ACTIVE, and every observer of the parent gets exactly one Activated for it. |
| Communicator.RemoteProcess.CreateLaunched | Source/com/Communicator.h:241-278 | The new process is CONSTRUCTED and was launched with options that encode the Object and Config. |
| Communicator.RemoteProcess.QueryInterface | Source/com/Communicator.h:294-306 | The `IRemoteProcess` id gives the process itself and one more reference. Any other id gives the stored implementation, or null, and empties the slot. |
| Communicator.RemoteProcess.State | Source/com/Communicator.h:325-351 | Setting the current state changes nothing. Otherwise every observer gets exactly one Activated, or one Deactivated, and deactivation drops the channel. |
| Communicator.RemoteProcess.Announce | Source/com/Communicator.h:322 | The process is bound to the channel it announced over, and the offered implementation waits in the one-shot slot. |
| Communicator.RemoteProcess.Kill | Source/com/Communicator.h:352-355 | Appends a soft or hard kill to the signals sent to the process. |
| Communicator.ClosingInfo.constructor | Source/com/Communicator.h:380-388 | Starts at INITIAL and takes a reference to its process. |
| Communicator.ClosingInfo.Copy | Source/com/Communicator.h:389-397 | The copy has the same process and stage and takes a reference of its own. |
| Communicator.ClosingInfo.Dispose | Source/com/Communicator.h:398-408 | Hard-kills a process that is still running, then releases the reference. |
| Communicator.ClosingInfo.Check | Source/com/Communicator.h:398-437 | One firing of the timer entry sends exactly `Escalation.Signals` of the step. A process still running past HARDKILL gets a last hard kill when the entry is dropped. A dropped entry gives up its reference, and a kept entry still holds its process. |
| Communicator.FireUntilDropped | Source/com/Communicator.h:398-437 | Firing one ClosingInfo repeatedly, each time at the due time the last firing returned, sends exactly the signals of `Escalation.Run` for the process's liveness at each firing. |
| Escalation.RunStep | Source/com/Communicator.h:411-437 | A run's signals are its first check's signals, followed by the run from the next stage at the returned due time when the entry was rescheduled. |
| Communicator.ClosingInfo.Timed | Source/com/Communicator.h:411-437 | Performs exactly `Escalation.Step`. A gone process is released and 0 is returned. INITIAL soft-kills and returns +6000. SOFTKILL hard-kills and returns +8000. Past HARDKILL, 0 is returned. |
| Escalation.StepAdvances | Source/com/Communicator.h:411-437 | The stage never goes back. A signal is sent iff the process is alive and not past HARDKILL. Each signal moves one stage on, with a later due time. |
| Escalation.DroppedWhenDone | Source/com/Communicator.h:411-437 | The timer entry is dropped exactly when the process is gone or was already hard-killed. |
| Escalation.RunFromInitial | Source/com/Communicator.h:398-437 | Whatever the process does, the signals sent are a prefix of three: a soft kill at the first check, a hard kill 6000 ms later, and the last hard kill on dropping the entry 8000 ms after that. |
| Escalation.RunFromSoftKill | Source/com/Communicator.h:398-437 | From SOFTKILL at most the hard kill and the last hard kill on dropping are left. |
| Escalation.RunFromHardKill | Source/com/Communicator.h:398-437 | From HARDKILL, a check that finds the process running ends the run with one hard kill, from the destructor of the dropped entry. Otherwise nothing is sent. |
| Escalation.StubbornRun | Source/com/Communicator.h:398-437 | A process alive at all three checks gets all three signals: soft, then hard 6000 ms later, then hard 8000 ms after that. |
| Escalation.GoneRun | Source/com/Communicator.h:415-420 | A process gone at the first check is never signalled. |
| Communicator.RemoteProcessMap.constructor | Source/com/Communicator.h:451-457 | A new map is empty and valid. |
| Communicator.RemoteProcessMap.Notify | Source/com/Communicator.h:657-684 | Calls the event on every observer, in list order. |
| Communicator.RemoteProcessMap.Activated | Source/com/Communicator.h:657-669 | Every observer gets Activated for the process, in list order. |
| Communicator.RemoteProcessMap.Deactivated | Source/com/Communicator.h:671-684 | Every observer gets Deactivated for the process, in list order. |
| RegistrySpec.FanOutOrder | Source/com/Communicator.h:657-684 | The i-th callback of a fan-out goes to the i-th observer. |
| RegistrySpec.FanOutOnce | Source/com/Communicator.h:657-684 | With no duplicate observers, each observer gets the event exactly once, and nothing else is called. |
| Communicator.RemoteProcessMap.Register | Source/com/Communicator.h:471-497 | An absent sink is appended. It is told about the processes in ascending pid order, one Activated for each ACTIVE process. The map stays valid. |
| Communicator.RemoteProcessMap.ReplayActive | Source/com/Communicator.h:481-494 | The walk over the map emits exactly the replay of the ACTIVE entries in ascending pid order. |
| RegistrySpec.RegisterReplaysActive | Source/com/Communicator.h:471-497 | The new sink gets exactly one Activated for each ACTIVE process and nothing for any other pid. |
| RegistrySpec.ReplayOnce | Source/com/Communicator.h:485-494 | For pids without duplicates, the replay names a pid once if it is ACTIVE and never otherwise. |
| RegistrySpec.AscendingMembers | Source/com/Communicator.h:597-610 | The ascending listing holds exactly the map's keys. |
| RegistrySpec.AscendingIncreasing | Source/com/Communicator.h:597-610 | The ascending listing is strictly increasing, so no pid appears twice. |
| RegistrySpec.Least | Source/com/Communicator.h:597-610 | The first key of a non-empty key set is in the set and no greater than any other key. |
| Communicator.IndexOf | Source/com/Communicator.h:506 | The position of the sink in the list, or the list's length when it is absent. |
| Communicator.RemoteProcessMap.Unregister | Source/com/Communicator.h:498-518 | Removes exactly that sink and keeps the other observers in order. An absent sink changes nothing. |
| RegistrySpec.WithoutMembers | Source/com/Communicator.h:498-518 | After removal, the list holds every other observer and not the sink. |
| RegistrySpec.WithoutNoDuplicates | Source/com/Communicator.h:498-518 | Removing a sink keeps the observer list free of duplicates. |
| RegistrySpec.EraseAt | Source/com/Communicator.h:510-514 | Erasing at the sink's unique position is the same as removing the sink. |
| Communicator.RemoteProcessMap.Create | Source/com/Communicator.h:527-547 | The launched process is CONSTRUCTED with two references (the caller's and the map's). It is filed under its pid unless that pid is already filed. |
| Communicator.RemoteProcessMap.Destroy | Source/com/Communicator.h:549-577 | An unknown pid changes nothing. A known pid is deactivated (one Deactivated per observer, channel dropped), erased, and loses the map's reference. Exactly when it still runs, it gets a ClosingInfo due 3000 ms later and no signal yet. Its liveness and returned interface are untouched. |
| Communicator.RemoteProcessMap.Schedule | Source/com/Communicator.h:563-568 | The timer gains one fresh INITIAL ClosingInfo for the process, due 3000 ms after now, holding a reference. |
| Communicator.RemoteProcessMap.Process | Source/com/Communicator.h:579-595 | Returns the process filed under the id with one more reference, or null for an unknown id. Nothing else changes. |
| Communicator.RemoteProcessMap.Processes | Source/com/Communicator.h:597-610 | Appends exactly the map's pids, in ascending order. |
| Communicator.RemoteProcessMap.Announce | Source/com/Communicator.h:611-655 | An invalid channel is refused, and neither the map nor the filed process changes. Otherwise the result is success. An unknown pid is filed as a new ACTIVE process. A null implementation is answered from the factory and the state is kept. A given implementation is stored and the process becomes ACTIVE. Observers are told once, exactly when the process became ACTIVE. An existing process keeps its references, liveness and kills. |
| Communicator.ProcessChannelLink.constructor | Source/com/Communicator.h:700-707 | A new link has no map and pid 0. |
| Communicator.ProcessChannelLink.Link | Source/com/Communicator.h:717-721 | Binds the link to the map and pid. |
| Communicator.ProcessChannelLink.StateChange | Source/com/Communicator.h:727-738 | A close with a linked pid destroys that process (erased, deactivated, a closing check iff it runs) and clears the pid. The process's channel is dropped and it loses the map's reference. Exactly when it still runs, the timer gains one INITIAL ClosingInfo for it, due 3000 ms later, which holds that reference. The observer list and the earlier timer entries are kept. An open channel or pid 0 changes nothing. |
| Communicator.ProcessChannelServer.constructor | Source/com/Communicator.h:844-855 | Keeps the registry and the proxy-stub path. |
| Communicator.ProcessChannelServer.Announce | Source/com/Communicator.h:873-892 | Success iff the channel is valid. On success the link is bound to the announcing pid, which is then filed in the map. On success the filed process is as `RemoteProcessMap.Announce` leaves it: a new one is ACTIVE on the channel, an offered implementation makes it ACTIVE and fills the slot, and observers are told once exactly when it became ACTIVE. On failure the link, the map's entries, the filed process and the notifications are unchanged. |
| Communicator.DeactivateTwice | Source/com/Communicator.h:325-351 | Deactivating twice tells the observers once, or never when the process was already DEACTIVATED. The process ends DEACTIVATED, and the channel is dropped only by the call that deactivated it. |
| Communicator.LoseConnectionTwice | Source/com/Communicator.h:727-738 | Two close notifications destroy the process once: one Deactivated fan-out and at most one closing check. |
| Communicator.AnnounceThenLose | Source/com/Communicator.h:873-892 | A process that announced itself over a channel is erased from the map when that channel closes. |
| Communicator.QueryTwice | Source/com/Communicator.h:294-306 | The stored implementation is handed out at most once. The second query gives null. |
| Communicator.RemoteProcessMap.DestroyAsWritten | Source/com/Communicator.h:549-577 | Destroy as written: the same as Destroy, except that a running process is hard-killed at once. |
| Communicator.RemoteProcessMap.ScheduleAsWritten | Source/com/Communicator.h:567 | Scheduling through a temporary ClosingInfo: the timer keeps a copy, and the temporary's destructor hard-kills a running process. |
| Communicator.TemporaryKillsAtOnce | Source/com/Communicator.h:398-408 | For a launched, still-running process, the as-written Destroy sends a hard kill at once and the corrected one sends nothing. |

## Left out

- Operating-system process control (`Launch`, `Kill`, `IsActive`) is foreign code. A launch is the options it is given, a kill is an entry in the `kills` log, and liveness is the `alive` field, which `RemoteProcess.Exited` clears.
- The admin lock, `StateTrigger::WaitState` and `CommunicatorClient::WaitForCompletion` are about concurrency. Each registry method is one atomic step, and re-entering the lock from `Announce` is not modelled.
- The destruction timer thread is not modelled. `Core::TimerType` is not part of this model. `timer` records what is scheduled. One firing of an entry is `ClosingInfo.Check`: `Timed`, then, when it returns 0, the drop that destroys the entry (`ClosingInfo.Dispose`). That the timer destroys an entry whose `Timed` returns 0 is assumed. `FireUntilDropped` fires one entry repeatedly at the due times it returns. The map does not model the firing as a step of its own, and the timer is assumed to fire each entry once per returned due time.
- `Core::Time(...).Add(ms).Ticks()` is taken as adding milliseconds to a `nat`; the tick unit and 64-bit overflow are not modelled.
- The IPC channel, socket server, message handlers and message serialisation are transport code. A channel is `NoChannel` or a valid `Channel`, and the link's channel state is the `open` argument of `StateChange`.
- `RemoteProcess::Announce`, `Instantiate` and `Terminate` are defined outside this file. `RemoteProcess.Announce` binds the channel and stores the offered implementation, which is what `QueryInterface` then hands out.
- `Communicator::Instance` is virtual and external. It is the map's `factory` parameter.
- `CommunicatorClient`, the `Communicator` facade's forwarding methods, `Size`, `IsValid`, `Pid`, `ExitCode`, `Id` and the `Object`/`Config` accessors are thin wrappers or field reads. The model reads the fields directly.
- Tracing is not modelled.
- Source/plugins/IShell.h is not part of this model; it only forwards to interfaces defined elsewhere.
- Observer reference counting (`sink->AddRef`/`Release`) and the map's destructor releasing remaining observers are not modelled.
- Null sinks are not modelled: an `Observer` is never null, so the `sink != nullptr` guards of `Register` and `Unregister` always hold.
- Communicator.RemoteProcessMap.Register: requires the sink to be absent, which the source only asserts. A release build would list the sink twice.
- Communicator.RemoteProcessMap.Unregister: an absent sink is a no-op, as in a release build; the source's assertion that it is present is not a precondition.
- Communicator.ClosingInfo.Timed: past HARDKILL with the process still running, the source asserts. The model follows a release build, which returns 0, after which the dropped entry's destructor sends the last hard kill (`ClosingInfo.Check`, `Escalation.Run`).
- Communicator.ProcessChannelServer.Announce: the source asserts that the channel is valid. The model keeps the registry's refusal of an invalid channel instead of requiring validity.
- Communicator.RemoteProcessMap.Create: the pid is a parameter, standing for the id the operating system gives the launched process.
- Notifications record the pid of the process rather than the `IRemoteProcess*` handed to the observer. The map holds one process per pid, so the two identify the same process.
- Communicator.RemoteProcessMap.Valid: it states that no filed process is DEACTIVATED, each is filed under its own pid, belongs to the map and is referenced, and no observer is listed twice. It does not state the exact reference counts.
- LaunchOptions.Decode is the reading of the options by the launched process. That code is not part of this model; `Decode` is written here as the partner of `Encode`.
- `NumberType<uint32_t>::Text` is modelled as plain decimal text (`NumberText.Text`).

## Findings

| source | as written | input that shows it | evidently intended | confidence | as-written member | corrected member |
|---|---|---|---|---|---|---|
| Source/com/Communicator.h:567 | `_destructor.Schedule(scheduleTime, ClosingInfo(index->second))` passes a temporary ClosingInfo. The timer keeps a copy, and the temporary's destructor (lines 398-408) runs at the end of the statement. It sees the process still running and hard-kills it. | Destroy of a launched process that is still running, for example the one in `TemporaryKillsAtOnce`. Its kills become `[Hard]` at once, before the 3 s grace period and the soft kill. | The process is given 3 s to exit, then a soft kill, then a hard kill 6 s later. Destroy itself sends no signal. | not executed | Communicator.RemoteProcessMap.DestroyAsWritten | Communicator.RemoteProcessMap.Destroy |
