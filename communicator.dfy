/** The out-of-process object registry of `Communicator.h`: remote processes,
    the pid-keyed map that owns them, the escalating shutdown of processes that
    outlive their connection, and the channel link that triggers it. Each
    registry method runs under the admin lock, so each is one atomic step here. */
module Communicator {
  import opened Values
  import opened RegistrySpec
  import opened Escalation
  import LaunchOptions

  /** `IRemoteProcess::ID`. */
  const RemoteProcessId: u32 := 1

  /** Milliseconds between a process losing its connection and the first
      check whether it has exited. */
  const CloseCheckDelay: nat := 3000

  /** An opaque `void*` interface handed across the channel; 0 is `nullptr`. */
  type Handle = nat

  /** A `Core::ProxyType<Core::IPCChannel>`: empty, or a valid channel. */
  datatype Channel = NoChannel | Channel(id: nat)

  /** The two `Core::ERROR_*` codes `Announce` returns. */
  datatype ErrorCode = ErrorNone | ErrorUnavailable

  /** The `Data::Init` an announcing process sends. */
  datatype AnnounceInfo = AnnounceInfo(exchangeId: u32, className: string, interfaceId: u32, versionId: u32)

  /** What `RemoteProcess::QueryInterface` hands back. */
  datatype Interface = Null | Self | Returned(handle: Handle)

  /** An entry of the destruction timer: a copy of a ClosingInfo and when it is due. */
  datatype Scheduled = Scheduled(due: nat, info: ClosingInfo)

  /** An `IRemoteProcess::INotification` sink; only its identity matters here. */
  class Observer {
    constructor ()
    {
    }
  }

  /** Where `sink` stands in `s`: its index, or `|s|` when it is not listed
      (`std::find` over the observer list). */
  method IndexOf(s: seq<Observer>, sink: Observer) returns (i: nat)
    ensures i <= |s|
    ensures i < |s| ==> s[i] == sink
    ensures forall j | 0 <= j < i :: s[j] != sink
  {
    i := 0;
    while i < |s| && s[i] != sink
      invariant i <= |s|
      invariant forall j | 0 <= j < i :: s[j] != sink
    {
      i := i + 1;
    }
  }

  /** A process the registry knows of: one it launched, or one that connected
      and announced itself. */
  class RemoteProcess {
    const parent: RemoteProcessMap
    /** `_process.Id()`. */
    const pid: u32
    /** The options it was launched with; None for a process that connected on its own. */
    const launch: Option<LaunchOptions.Options>
    var state: ProcessState
    var channel: Channel
    var returnedInterface: Handle
    /** The reference count of `Core::Service<RemoteProcess>`. */
    var refs: nat
    /** Whether the operating system still runs the process (`IsActive()`). */
    var alive: bool
    /** Every `Kill(hardKill)` sent to the process, in order. */
    var kills: seq<Signal>

    /** The constructor for a process that connected over `channel`. */
    constructor Connected(parent: RemoteProcessMap, pid: u32, channel: Channel)
      ensures this.parent == parent && this.pid == pid && launch == None
      ensures state == Active && this.channel == channel && returnedInterface == 0
      ensures refs == 1 && alive && kills == []
    {
      this.parent := parent;
      this.pid := pid;
      launch := None;
      state := Active;
      this.channel := channel;
      returnedInterface := 0;
      refs := 1;
      alive := true;
      kills := [];
    }

    /** The constructor that launches a process with `options`; the operating
      system gives it the id `pid`. */
    constructor Launched(parent: RemoteProcessMap, pid: u32, options: LaunchOptions.Options)
      ensures this.parent == parent && this.pid == pid && launch == Some(options)
      ensures state == Constructed && channel == NoChannel && returnedInterface == 0
      ensures refs == 1 && alive && kills == []
    {
      this.parent := parent;
      this.pid := pid;
      launch := Some(options);
      state := Constructed;
      channel := NoChannel;
      returnedInterface := 0;
      refs := 1;
      alive := true;
      kills := [];
    }

    /** `RemoteProcess::Create(parent, pid, channel)`: an announced process is
      active from the start, and the parent's observers are told so. */
    static method CreateConnected(parent: RemoteProcessMap, pid: u32, channel: Channel) returns (result: RemoteProcess)
      modifies parent`notifications
      ensures fresh(result)
      ensures result.parent == parent && result.pid == pid && result.launch == None
      ensures result.state == Active && result.channel == channel && result.returnedInterface == 0
      ensures result.refs == 1 && result.alive && result.kills == []
      ensures parent.notifications == old(parent.notifications) + FanOut(parent.observers, Activation, pid)
    {
      result := new RemoteProcess.Connected(parent, pid, channel);
      parent.Activated(pid);
    }

    /** `RemoteProcess::Create(parent, pid, instance, config)`: launches the
      host application with the options that describe `instance` and `config`. */
    static method CreateLaunched(parent: RemoteProcessMap, pid: u32, instance: Object, config: Config) returns (result: RemoteProcess)
      requires instance.locator != [] && instance.className != [] && config.connector != []
      ensures fresh(result)
      ensures result.parent == parent && result.pid == pid
      ensures result.launch.Some? && LaunchOptions.Encodes(result.launch.value, instance, config)
      ensures result.state == Constructed && result.channel == NoChannel && result.returnedInterface == 0
      ensures result.refs == 1 && result.alive && result.kills == []
    {
      var options := LaunchOptions.Encode(instance, config);
      result := new RemoteProcess.Launched(parent, pid, options);
    }

    /** Asking for `IRemoteProcess` gives the process itself and a new
      reference; any other id gives the interface the process announced, once. */
    method QueryInterface(id: u32) returns (r: Interface)
      modifies this`refs, this`returnedInterface
      ensures id == RemoteProcessId ==> r == Self && refs == old(refs) + 1 && returnedInterface == old(returnedInterface)
      ensures id != RemoteProcessId ==> refs == old(refs) && returnedInterface == 0
      ensures id != RemoteProcessId ==> r == if old(returnedInterface) != 0 then Returned(old(returnedInterface)) else Null
    {
      if id == RemoteProcessId {
        AddRef();
        r := Self;
      } else if returnedInterface != 0 {
        r := Returned(returnedInterface);
        returnedInterface := 0;
      } else {
        r := Null;
      }
    }

    /** `State(newState)`: a change of state is reported to every observer of
      the parent, and deactivation releases the channel; setting the state it
      already has does nothing. */
    method State(newState: ProcessState)
      requires newState != Constructed
      modifies this`state, this`channel, parent`notifications
      ensures state == newState
      ensures channel == if old(state) != newState && newState == Deactivated then NoChannel else old(channel)
      ensures parent.notifications == old(parent.notifications) +
        if old(state) == newState then []
        else FanOut(parent.observers, if newState == Active then Activation else Deactivation, pid)
    {
      if state != newState {
        state := newState;
        if state == Deactivated {
          parent.Deactivated(pid);
          channel := NoChannel;
        } else {
          parent.Activated(pid);
        }
      }
    }

    /** `RemoteProcess::Announce`: the process is bound to the channel it
      announced over, and the implementation it offers waits in the one-shot
      slot that `QueryInterface` empties. */
    method Announce(channel: Channel, implementation: Handle)
      modifies this`channel, this`returnedInterface
      ensures this.channel == channel && returnedInterface == implementation
    {
      this.channel := channel;
      returnedInterface := implementation;
    }

    method AddRef()
      modifies this`refs
      ensures refs == old(refs) + 1
    {
      refs := refs + 1;
    }

    method Release()
      requires refs > 0
      modifies this`refs
      ensures refs == old(refs) - 1
    {
      refs := refs - 1;
    }

    /** The operating system reports that the process has ended. */
    method Exited()
      modifies this`alive
      ensures !alive
    {
      alive := false;
    }

    /** `Kill(hardKill)`: asks the operating system to end the process. */
    method Kill(hard: bool)
      modifies this`kills
      ensures kills == old(kills) + [if hard then Hard else Soft]
    {
      kills := kills + [if hard then Hard else Soft];
    }
  }

  /** The timer payload that shuts down a process which lost its connection. */
  class ClosingInfo {
    var process: RemoteProcess?
    var stage: Stage

    /** Holds a reference to `process` from the start. */
    constructor (process: RemoteProcess?)
      modifies (if process != null then {process} else {})`refs
      ensures this.process == process && stage == Initial
      ensures process != null ==> process.refs == old(process.refs) + 1
    {
      this.process := process;
      stage := Initial;
      new;
      if process != null {
        process.AddRef();
      }
    }

    /** The copy constructor: the copy holds a reference of its own. */
    constructor Copy(other: ClosingInfo)
      modifies (if other.process != null then {other.process} else {})`refs
      ensures process == other.process && stage == other.stage
      ensures other.process != null ==> other.process.refs == old(other.process.refs) + 1
    {
      process := other.process;
      stage := other.stage;
      new;
      if process != null {
        process.AddRef();
      }
    }

    /** One timer check at `scheduledTime`: the step `Escalation.Step` describes.
      A process that is gone is let go and 0 returned; otherwise the next kill
      is sent and the time of the next check returned. */
    method Timed(scheduledTime: nat) returns (next: nat)
      requires process != null && process.refs > 0
      modifies this, process`refs, process`kills
      ensures var o := Step(old(stage), old(process.alive), scheduledTime);
        && next == NextDue(o)
        && stage == After(old(stage), o)
        && old(process).kills == old(process.kills) + (if o.Escalated? then [o.signal] else [])
        && (if o == Closed then process == null && old(process).refs == old(process.refs) - 1
            else process == old(process) && process.refs == old(process.refs))
    {
      next := 0;
      if !process.alive {
        process.Release();
        process := null;
      } else if stage == Initial {
        stage := SoftKill;
        process.Kill(false);
        next := scheduledTime + SoftKillGrace;
      } else if stage == SoftKill {
        stage := HardKill;
        process.Kill(true);
        next := scheduledTime + HardKillGrace;
      }
      // Otherwise the process is still alive after its hard kill: the source
      // asserts here, and a release build drops the entry by returning 0.
    }

    /** One firing of the timer entry: `Timed`, and when that returns 0 the
      timer drops the entry, destroying it. The signals sent are those of
      `Escalation.Signals`, and a dropped entry no longer holds a reference. */
    method Check(scheduledTime: nat) returns (next: nat)
      requires process != null && process.refs > 0
      modifies this, process`refs, process`kills
      ensures var o := Step(old(stage), old(process.alive), scheduledTime);
        && next == NextDue(o)
        && stage == After(old(stage), o)
        && old(process).kills == old(process.kills) + Signals(o)
        && old(process).refs == old(process.refs) - (if next == 0 then 1 else 0)
      ensures next != 0 ==> process == old(process)
    {
      next := Timed(scheduledTime);
      if next == 0 {
        Dispose();
      }
    }

    /** `~ClosingInfo`: a process still alive is hard-killed on the spot, and
      the reference is released. */
    method Dispose()
      requires process != null ==> process.refs > 0
      modifies (if process != null then {process} else {})`refs, (if process != null then {process} else {})`kills
      ensures process != null ==> process.refs == old(process.refs) - 1
      ensures process != null ==> process.kills == old(process.kills) + if process.alive then [Hard] else []
    {
      if process != null {
        if process.alive {
          process.Kill(true);
        }
        process.Release();
      }
    }
  }

  /** `RemoteProcessMap`: the live processes by pid, the observers of their
      activation, and the timer that shuts down processes left behind. */
  class RemoteProcessMap {
    var processes: map<u32, RemoteProcess>
    var observers: seq<Observer>
    /** Every callback made to an observer, in order. */
    var notifications: seq<Notification<Observer>>
    /** The ClosingInfo entries handed to the destruction timer, in order. */
    var timer: seq<Scheduled>
    /** `Communicator::Instance`: makes the object an announcing process asks for. */
    const factory: (string, u32, u32) -> Handle

    constructor (factory: (string, u32, u32) -> Handle)
      ensures processes == map[] && observers == [] && notifications == [] && timer == []
      ensures this.factory == factory
      ensures Valid()
    {
      processes := map[];
      observers := [];
      notifications := [];
      timer := [];
      this.factory := factory;
    }

    /** Each entry is filed under its own pid, belongs to this map, has not
      been deactivated and is referenced; no observer is listed twice. */
    ghost predicate Valid()
      reads this`processes, this`observers, processes.Values
    {
      && (forall pid | pid in processes ::
            && processes[pid].pid == pid
            && processes[pid].parent == this
            && !processes[pid].state.Deactivated?
            && processes[pid].refs > 0)
      && NoDuplicates(observers)
    }

    /** The process filed under `pid`, as a frame: empty for an unknown pid. */
    ghost function Filed(pid: u32): set<RemoteProcess>
      reads this`processes
    {
      if pid in processes then {processes[pid]} else {}
    }

    /** The state of each process, by pid. */
    ghost function States(): map<u32, ProcessState>
      reads this`processes, processes.Values
    {
      map pid | pid in processes :: processes[pid].state
    }

    /** Calls `event` on every observer in list order. */
    method Notify(event: Event, pid: u32)
      modifies this`notifications
      ensures notifications == old(notifications) + FanOut(observers, event, pid)
    {
      var i := 0;
      while i < |observers|
        invariant i <= |observers|
        invariant notifications == old(notifications) + FanOut(observers[..i], event, pid)
      {
        assert observers[..i + 1][..i] == observers[..i];
        notifications := notifications + [Notification(observers[i], event, pid)];
        i := i + 1;
      }
      assert observers[..i] == observers;
    }

    method Activated(pid: u32)
      modifies this`notifications
      ensures notifications == old(notifications) + FanOut(observers, Activation, pid)
    {
      Notify(Activation, pid);
    }

    method Deactivated(pid: u32)
      modifies this`notifications
      ensures notifications == old(notifications) + FanOut(observers, Deactivation, pid)
    {
      Notify(Deactivation, pid);
    }

    /** Adds `sink` at the end of the observer list and tells it, in pid
      order, about every process that is already active. */
    method Register(sink: Observer)
      requires Valid() && sink !in observers
      modifies this`observers, this`notifications
      ensures Valid()
      ensures observers == old(observers) + [sink]
      ensures notifications == old(notifications) + Replay(sink, Ascending(processes.Keys), States())
    {
      observers := observers + [sink];
      assert NoDuplicates(observers) by {
        assert forall i | 0 <= i < |old(observers)| :: observers[i] == old(observers)[i];
      }
      ReplayActive(sink);
    }

    /** The walk of `Register` over the map: Activated to `sink` for every
      ACTIVE process, in pid order. */
    method ReplayActive(sink: Observer)
      modifies this`notifications
      ensures notifications == old(notifications) + Replay(sink, Ascending(processes.Keys), States())
    {
      ghost var states := States();
      ghost var keys := processes.Keys;
      var rest := processes.Keys;
      while rest != {}
        invariant rest <= keys
        invariant notifications + Replay(sink, Ascending(rest), states) == old(notifications) + Replay(sink, Ascending(keys), states)
        decreases rest
      {
        var pid :| pid in rest && forall k | k in rest :: pid <= k;
        AscendingFirst(rest, pid);
        ghost var before := notifications;
        if processes[pid].state == Active {
          notifications := notifications + [Notification(sink, Activation, pid)];
        }
        ReplayStep(before, notifications, sink, pid, Ascending(rest - {pid}), states);
        rest := rest - {pid};
      }
    }

    /** Takes `sink` off the observer list, keeping the others in order. */
    method Unregister(sink: Observer)
      requires Valid()
      modifies this`observers
      ensures Valid()
      ensures observers == Without(old(observers), sink)
    {
      var i := IndexOf(observers, sink);
      if i < |observers| {
        EraseAt(observers, i, sink);
        observers := observers[..i] + observers[i + 1..];
      } else {
        WithoutAbsent(observers, sink);
      }
      WithoutNoDuplicates(old(observers), sink);
    }

    /** Launches a process and files it under the pid the operating system
      gave it; the map holds a reference of its own. An entry already filed
      under that pid is kept (`std::map::insert`). */
    method Create(pid: u32, instance: Object, config: Config) returns (result: RemoteProcess)
      requires Valid()
      requires instance.locator != [] && instance.className != [] && config.connector != []
      modifies this`processes
      ensures Valid()
      ensures fresh(result)
      ensures result.parent == this && result.pid == pid && result.state == Constructed
      ensures result.launch.Some? && LaunchOptions.Encodes(result.launch.value, instance, config)
      ensures result.refs == 2 && result.alive && result.kills == []
      ensures processes == if pid in old(processes) then old(processes) else old(processes)[pid := result]
    {
      result := RemoteProcess.CreateLaunched(this, pid, instance, config);
      result.AddRef();
      if pid !in processes {
        processes := processes[pid := result];
      }
    }

    /** The process filed under `id`, with a new reference, or null. */
    method Process(id: u32) returns (result: RemoteProcess?)
      requires Valid()
      modifies Filed(id)`refs
      ensures Valid()
      ensures result == if id in processes then processes[id] else null
      ensures result != null ==> result.refs == old(result.refs) + 1
    {
      result := null;
      if id in processes {
        result := processes[id];
        result.AddRef();
      }
    }

    /** Appends the pids of all processes, in ascending order, to `pidList`. */
    method Processes(pidList: seq<u32>) returns (r: seq<u32>)
      ensures r == pidList + Ascending(processes.Keys)
    {
      r := pidList;
      var rest := processes.Keys;
      while rest != {}
        invariant r + Ascending(rest) == pidList + Ascending(processes.Keys)
        decreases rest
      {
        var pid :| pid in rest && forall k | k in rest :: pid <= k;
        AscendingFirst(rest, pid);
        r := r + [pid];
        rest := rest - {pid};
      }
    }

    /** Drops the process filed under `pid`: it is deactivated (its observers
      are told, its channel released), handed to the destruction timer when it
      is still running, and erased from the map with the map's reference
      released. An unknown pid changes nothing. The timer receives the one
      ClosingInfo it keeps; no other copy is made or destroyed. */
    method Destroy(pid: u32, now: nat)
      requires Valid()
      modifies this`processes, this`notifications, this`timer
      modifies Filed(pid)`state, Filed(pid)`channel, Filed(pid)`refs
      ensures Valid()
      ensures pid !in old(processes) ==>
        processes == old(processes) && notifications == old(notifications) && timer == old(timer)
      ensures pid in old(processes) ==>
        var p := old(processes[pid]);
        && processes == old(processes) - {pid}
        && p.state == ProcessState.Deactivated && p.channel == NoChannel
        && notifications == old(notifications) + FanOut(observers, Deactivation, pid)
        && p.kills == old(p.kills)
        && p.refs == old(p.refs) - (if old(p.alive) then 0 else 1)
        && (if old(p.alive) then Closing(old(timer), timer, p, now) else timer == old(timer))
    {
      if pid in processes {
        var p := processes[pid];
        p.State(ProcessState.Deactivated);
        if p.alive {
          Schedule(p, now);
        }
        p.Release();
        processes := processes - {pid};
      }
    }

    /** Hands the timer a ClosingInfo for `p`, due `CloseCheckDelay` after
      `now`; the ClosingInfo holds a reference of its own. */
    method Schedule(p: RemoteProcess, now: nat)
      modifies this`timer, p`refs
      ensures Closing(old(timer), timer, p, now)
      ensures p.refs == old(p.refs) + 1
    {
      var info := new ClosingInfo(p);
      timer := timer + [Scheduled(now + CloseCheckDelay, info)];
    }

    /** `_destructor.Schedule(scheduleTime, ClosingInfo(p))` as written: the
      timer keeps a copy of a temporary, and the temporary's destructor then
      runs, killing `p` at once if it is still running. */
    method ScheduleAsWritten(p: RemoteProcess, now: nat)
      modifies this`timer, p`refs, p`kills
      ensures Closing(old(timer), timer, p, now)
      ensures p.refs == old(p.refs) + 1
      ensures p.kills == old(p.kills) + if p.alive then [Hard] else []
    {
      var temporary := new ClosingInfo(p);
      var kept := new ClosingInfo.Copy(temporary);
      timer := timer + [Scheduled(now + CloseCheckDelay, kept)];
      temporary.Dispose();
    }

    /** `timer` is `before` plus one fresh ClosingInfo for `p`, at its initial
      stage and due `CloseCheckDelay` after `now`. */
    twostate predicate Closing(before: seq<Scheduled>, new timer: seq<Scheduled>, p: RemoteProcess, now: nat)
      reads set entry | entry in timer :: entry.info
    {
      && |timer| == |before| + 1
      && timer[..|before|] == before
      && timer[|before|].due == now + CloseCheckDelay
      && fresh(timer[|before|].info)
      && timer[|before|].info.process == p
      && timer[|before|].info.stage == Initial
    }

    /** `Destroy` as the source writes it: `Schedule(scheduleTime,
      ClosingInfo(process))` builds a temporary ClosingInfo, the timer keeps a
      copy, and the temporary's destructor runs at the end of the statement,
      hard-killing the process it was meant to give time to exit. */
    method DestroyAsWritten(pid: u32, now: nat)
      requires Valid()
      modifies this`processes, this`notifications, this`timer
      modifies Filed(pid)`state, Filed(pid)`channel, Filed(pid)`refs, Filed(pid)`kills
      ensures Valid()
      ensures pid !in old(processes) ==>
        processes == old(processes) && notifications == old(notifications) && timer == old(timer)
      ensures pid in old(processes) ==>
        var p := old(processes[pid]);
        && processes == old(processes) - {pid}
        && p.state == ProcessState.Deactivated && p.channel == NoChannel
        && notifications == old(notifications) + FanOut(observers, Deactivation, pid)
        && p.kills == old(p.kills) + (if old(p.alive) then [Hard] else [])
        && p.refs == old(p.refs) - (if old(p.alive) then 0 else 1)
        && (if old(p.alive) then Closing(old(timer), timer, p, now) else timer == old(timer))
    {
      if pid in processes {
        var p := processes[pid];
        p.State(ProcessState.Deactivated);
        if p.alive {
          ScheduleAsWritten(p, now);
        }
        p.Release();
        processes := processes - {pid};
      }
    }

    /** A process announcing itself over `channel`. An invalid channel is
      refused. An unknown pid is a process that connected on its own: it is
      filed as active, and the observers are told. A request (a null
      `implementation`) is answered from the factory; an offer is bound to the
      process, which becomes active. */
    method Announce(channel: Channel, info: AnnounceInfo, implementation: Handle) returns (result: ErrorCode, handed: Handle)
      requires Valid()
      modifies this`processes, this`notifications
      modifies Filed(info.exchangeId)`state, Filed(info.exchangeId)`channel, Filed(info.exchangeId)`returnedInterface
      ensures Valid()
      ensures channel == NoChannel ==>
        && result == ErrorUnavailable && handed == implementation
        && processes == old(processes) && notifications == old(notifications)
        && (info.exchangeId in old(processes) ==> unchanged(old(processes[info.exchangeId])))
      ensures channel != NoChannel ==> result == ErrorNone && info.exchangeId in processes
      ensures channel != NoChannel ==>
        var id := info.exchangeId;
        var p := processes[id];
        && processes == old(processes)[id := p]
        && (id in old(processes) ==> p == old(processes[id]))
        && (id !in old(processes) ==> fresh(p) && p.launch == None && p.refs == 1 && p.alive && p.kills == [])
        && handed == (if implementation == 0 then factory(info.className, info.interfaceId, info.versionId) else implementation)
        && (implementation != 0 ==> p.state == Active && p.channel == channel && p.returnedInterface == implementation)
        && (implementation == 0 && id !in old(processes) ==> p.state == Active && p.channel == channel && p.returnedInterface == 0)
        && (implementation == 0 && id in old(processes) ==>
              p.state == old(p.state) && p.channel == old(p.channel) && p.returnedInterface == old(p.returnedInterface))
        && notifications == old(notifications) +
             if id !in old(processes) || (implementation != 0 && old(processes[id].state) != Active)
             then FanOut(observers, Activation, id) else []
    {
      result := ErrorUnavailable;
      handed := implementation;
      if channel != NoChannel {
        var id := info.exchangeId;
        if id !in processes {
          var created := RemoteProcess.CreateConnected(this, id, channel);
          processes := processes[id := created];
        }
        var p := processes[id];
        if implementation == 0 {
          handed := factory(info.className, info.interfaceId, info.versionId);
        } else {
          p.Announce(channel, implementation);
          p.State(Active);
        }
        result := ErrorNone;
      }
    }
  }

  /** The extension of a server-side channel that remembers which process
    announced itself over it, so that losing the channel destroys it. */
  class ProcessChannelLink {
    var processMap: RemoteProcessMap?
    var pid: u32

    constructor ()
      ensures processMap == null && pid == 0
    {
      processMap := null;
      pid := 0;
    }

    /** Binds the channel to the process `pid` of `processMap`. */
    method Link(processMap: RemoteProcessMap, pid: u32)
      modifies this`processMap, this`pid
      ensures this.processMap == processMap && this.pid == pid
    {
      this.processMap := processMap;
      this.pid := pid;
    }

    /** The map whose process a close with this `open` destroys, as a frame. */
    ghost function Destroying(open: bool): set<RemoteProcessMap>
      reads this`processMap, this`pid
    {
      if !open && pid != 0 && processMap != null then {processMap} else {}
    }

    /** The process such a close destroys, as a frame. */
    ghost function Dropping(open: bool): set<RemoteProcess>
      reads this`processMap, this`pid, Destroying(open)
    {
      if !open && pid != 0 && processMap != null then processMap.Filed(pid) else {}
    }

    /** The channel opened or closed (`open`). A closed channel with a linked
      process destroys that process and forgets it, so that a later close
      destroys nothing; anything else changes nothing. */
    method StateChange(open: bool, now: nat)
      requires !open && pid != 0 ==> processMap != null && processMap.Valid()
      modifies this`pid
      modifies Destroying(open)`processes, Destroying(open)`notifications, Destroying(open)`timer
      modifies Dropping(open)`state, Dropping(open)`channel, Dropping(open)`refs
      ensures processMap == old(processMap)
      ensures open || old(pid) == 0 ==> pid == old(pid)
      ensures !open && old(pid) != 0 ==>
        && pid == 0
        && processMap.Valid()
        && processMap.observers == old(processMap.observers)
        && old(processMap.timer) <= processMap.timer
        && processMap.processes == old(processMap.processes) - {old(pid)}
        && processMap.notifications == old(processMap.notifications) +
             (if old(pid) in old(processMap.processes) then FanOut(processMap.observers, Deactivation, old(pid)) else [])
        && (old(pid) in old(processMap.processes) ==> old(processMap.processes[pid]).state == ProcessState.Deactivated)
        && |processMap.timer| == |old(processMap.timer)| +
             (if old(pid) in old(processMap.processes) && old(processMap.processes[pid].alive) then 1 else 0)
      ensures !open && old(pid) != 0 && old(pid) in old(processMap.processes) ==>
        var p := old(processMap.processes[pid]);
        && p.channel == NoChannel
        && p.refs == old(p.refs) - (if old(p.alive) then 0 else 1)
        && (if old(p.alive) then processMap.Closing(old(processMap.timer), processMap.timer, p, now)
            else processMap.timer == old(processMap.timer))
    {
      if !open && pid != 0 {
        processMap.Destroy(pid, now);
        pid := 0;
      }
    }
  }

  /** The server side of the process channel: it hands announcements to the
    registry and links the channel to the process on success. */
  class ProcessChannelServer {
    const processes: RemoteProcessMap
    const proxyStubPath: string

    constructor (processes: RemoteProcessMap, proxyStubPath: string)
      ensures this.processes == processes && this.proxyStubPath == proxyStubPath
    {
      this.processes := processes;
      this.proxyStubPath := proxyStubPath;
    }

    /** An announcement over `channel`, whose extension is `link`: the
      registry's answer, and on success the link to the announcing process. */
    method Announce(link: ProcessChannelLink, channel: Channel, info: AnnounceInfo, implementation: Handle)
      returns (result: ErrorCode, handed: Handle)
      requires processes.Valid()
      modifies processes`processes, processes`notifications, link`processMap, link`pid
      modifies processes.Filed(info.exchangeId)`state, processes.Filed(info.exchangeId)`channel
      modifies processes.Filed(info.exchangeId)`returnedInterface
      ensures processes.Valid()
      ensures result == ErrorNone <==> channel != NoChannel
      ensures handed == if channel == NoChannel || implementation != 0 then implementation
        else processes.factory(info.className, info.interfaceId, info.versionId)
      ensures result == ErrorNone ==>
        && link.processMap == processes && link.pid == info.exchangeId
        && info.exchangeId in processes.processes
        && processes.processes == old(processes.processes)[info.exchangeId := processes.processes[info.exchangeId]]
        && (info.exchangeId in old(processes.processes) ==>
              processes.processes[info.exchangeId] == old(processes.processes[info.exchangeId]))
        && (info.exchangeId !in old(processes.processes) ==> fresh(processes.processes[info.exchangeId]))
      ensures result == ErrorNone ==>
        var id := info.exchangeId;
        var p := processes.processes[id];
        && (id !in old(processes.processes) ==> p.launch == None && p.refs == 1 && p.alive && p.kills == [])
        && (implementation != 0 ==> p.state == Active && p.channel == channel && p.returnedInterface == implementation)
        && (implementation == 0 && id !in old(processes.processes) ==>
              p.state == Active && p.channel == channel && p.returnedInterface == 0)
        && (implementation == 0 && id in old(processes.processes) ==>
              p.state == old(p.state) && p.channel == old(p.channel) && p.returnedInterface == old(p.returnedInterface))
        && processes.notifications == old(processes.notifications) +
             if id !in old(processes.processes) || (implementation != 0 && old(processes.processes[id].state) != Active)
             then FanOut(processes.observers, Activation, id) else []
      ensures result != ErrorNone ==>
        && link.processMap == old(link.processMap) && link.pid == old(link.pid)
        && processes.processes == old(processes.processes)
        && processes.notifications == old(processes.notifications)
        && (info.exchangeId in old(processes.processes) ==> unchanged(old(processes.processes[info.exchangeId])))
    {
      result, handed := processes.Announce(channel, info, implementation);
      if result == ErrorNone {
        link.Link(processes, info.exchangeId);
      }
    }
  }

  /** The timer firing one ClosingInfo again and again, each time at the due
    time the previous firing returned, until it drops the entry or `lives`
    runs out. The process is alive at the i-th firing as `lives[i]` says; once
    gone it stays gone. The kills sent are exactly the signals of
    `Escalation.Run`. */
  method FireUntilDropped(info: ClosingInfo, lives: seq<bool>, t: nat)
    requires info.process != null && info.process.refs > 0
    requires forall i, j | 0 <= i < j < |lives| :: lives[j] ==> lives[i]
    requires !info.process.alive ==> forall j | 0 <= j < |lives| :: !lives[j]
    modifies info, info.process`refs, info.process`kills, info.process`alive
    ensures old(info.process).kills == old(info.process.kills) + Kinds(Run(old(info.stage), lives, t))
  {
    var p := info.process;
    ghost var total := p.kills + Kinds(Run(info.stage, lives, t));
    var i := 0;
    var due := t;
    var dropped := false;
    while i < |lives| && !dropped
      invariant 0 <= i <= |lives|
      invariant dropped ==> p.kills == total
      invariant !dropped ==> info.process == p && p.refs > 0
      invariant !dropped ==> total == p.kills + Kinds(Run(info.stage, lives[i..], due))
      invariant !dropped && !p.alive ==> forall j | i <= j < |lives| :: !lives[j]
      decreases |lives| - i
    {
      if !lives[i] && p.alive {
        p.Exited();
      }
      assert p.alive == lives[i];
      ghost var o := Step(info.stage, lives[i], due);
      ghost var before := p.kills;
      RunStep(info.stage, lives[i..], due);
      assert lives[i..][1..] == lives[i + 1..];
      var next := info.Check(due);
      assert p.kills == before + Signals(o);
      if next == 0 {
        dropped := true;
      } else {
        due := next;
      }
      i := i + 1;
    }
  }

  /** A process that is launched and then dropped while it still runs. As
    written, `Destroy` hard-kills it on the spot; corrected, it is sent no
    signal until the closing check is due. */
  method TemporaryKillsAtOnce() returns (asWritten: seq<Signal>, corrected: seq<Signal>)
    ensures asWritten == [Hard]
    ensures corrected == []
  {
    var instance := Object("libHost.so", "Host", 1, Unspecified, "", "");
    var config := Config("/tmp/communicator", "HostApp", "", "", "", "", "");
    var written := new RemoteProcessMap((className: string, interfaceId: u32, version: u32) => 0);
    var p := written.Create(7, instance, config);
    written.DestroyAsWritten(7, 0);
    asWritten := p.kills;
    var fixed := new RemoteProcessMap((className: string, interfaceId: u32, version: u32) => 0);
    var q := fixed.Create(7, instance, config);
    fixed.Destroy(7, 0);
    corrected := q.kills;
  }

  /** The one-shot slot: asked twice for an interface other than
    `IRemoteProcess`, a process hands out what it was given at most once. */
  method QueryTwice(p: RemoteProcess, id: u32) returns (first: Interface, second: Interface)
    requires id != RemoteProcessId
    modifies p`refs, p`returnedInterface
    ensures first == if old(p.returnedInterface) != 0 then Returned(old(p.returnedInterface)) else Null
    ensures second == Null
    ensures p.refs == old(p.refs)
  {
    first := p.QueryInterface(id);
    second := p.QueryInterface(id);
  }

  /** Deactivation is idempotent: deactivating a process twice tells the
    observers at most once, and the second call changes nothing. */
  method DeactivateTwice(p: RemoteProcess)
    modifies p`state, p`channel, p.parent`notifications
    ensures p.state == ProcessState.Deactivated
    ensures p.channel == if old(p.state) == ProcessState.Deactivated then old(p.channel) else NoChannel
    ensures p.parent.notifications == old(p.parent.notifications) +
      if old(p.state) == ProcessState.Deactivated then [] else FanOut(p.parent.observers, Deactivation, p.pid)
  {
    p.State(ProcessState.Deactivated);
    p.State(ProcessState.Deactivated);
  }

  /** Closing a linked channel twice destroys its process once: one
    Deactivated fan-out and at most one closing check. */
  method LoseConnectionTwice(link: ProcessChannelLink, now: nat, later: nat)
    requires link.pid != 0 && link.processMap != null && link.processMap.Valid()
    modifies link`pid, link.processMap`processes, link.processMap`notifications, link.processMap`timer
    modifies link.processMap.Filed(link.pid)`state, link.processMap.Filed(link.pid)`channel
    modifies link.processMap.Filed(link.pid)`refs
    ensures link.pid == 0 && link.processMap.Valid()
    ensures link.processMap.processes == old(link.processMap.processes) - {old(link.pid)}
    ensures link.processMap.notifications == old(link.processMap.notifications) +
      (if old(link.pid) in old(link.processMap.processes)
       then FanOut(link.processMap.observers, Deactivation, old(link.pid)) else [])
    ensures link.processMap.observers == old(link.processMap.observers)
    ensures old(link.processMap.timer) <= link.processMap.timer
    ensures |link.processMap.timer| <= |old(link.processMap.timer)| + 1
  {
    link.StateChange(false, now);
    link.StateChange(false, later);
  }

  /** A process that announced itself over a channel is dropped from the
    registry when that channel closes. (The link of pid 0 is inert, and the
    operating system gives no process that id.) */
  method AnnounceThenLose(server: ProcessChannelServer, link: ProcessChannelLink, channel: Channel,
                          info: AnnounceInfo, implementation: Handle, now: nat)
    requires server.processes.Valid() && channel != NoChannel && info.exchangeId != 0
    modifies server.processes`processes, server.processes`notifications, server.processes`timer
    modifies link`processMap, link`pid
    modifies server.processes.Filed(info.exchangeId)`state, server.processes.Filed(info.exchangeId)`channel
    modifies server.processes.Filed(info.exchangeId)`returnedInterface, server.processes.Filed(info.exchangeId)`refs
    ensures server.processes.Valid()
    ensures server.processes.processes == old(server.processes.processes) - {info.exchangeId}
    ensures link.processMap == server.processes && link.pid == 0
  {
    var result, handed := server.Announce(link, channel, info, implementation);
    link.StateChange(false, now);
  }
}
