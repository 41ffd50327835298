/**
  Process resolution and process-mapping construction used by the current engine
  (VolMixerConsole/Components/VolMixerHelper.cs). The COM enumerations are the
  sequences of `Audio.Platform`; `Process.GetProcessById(pid).ProcessName` is a
  lookup in its process table.

  When `GetProcessById` throws, the source logs the error and then reads
  `ProcessName` off the null result: a NullReferenceException escapes. The model
  reports that as the explicit outcome `Crashed(pid)` / `NullReference(pid)`.
*/
module Helper {
  import opened Wrappers
  import opened Audio
  import opened Config

  /** The pin-name template "Pin_{0}" is this prefix followed by the channel. */
  const BASE_PIN_NAME_PREFIX: string := "Pin_"

  function PinName(channel: string): (r: string)
    ensures |r| == |BASE_PIN_NAME_PREFIX| + |channel|
    ensures r[..|BASE_PIN_NAME_PREFIX|] == BASE_PIN_NAME_PREFIX && r[|BASE_PIN_NAME_PREFIX|..] == channel
  {
    BASE_PIN_NAME_PREFIX + channel
  }

  /** Distinct channels give distinct pin names. */
  lemma PinNameInjective(a: string, b: string)
    requires PinName(a) == PinName(b)
    ensures a == b
  {
    assert a == PinName(a)[|BASE_PIN_NAME_PREFIX|..];
  }

  /** What `TryGetProcessIdsByApplicationName` ends in. */
  datatype Resolution =
    | NoDevice               // returns false, empty output
    | Crashed(pid: int)      // NullReferenceException for a session whose process is gone
    | Found(pids: seq<int>)  // returns true

  /** The process ids of the sessions, in enumeration order. */
  function SessionPids(sessions: seq<Session>): (r: seq<int>)
    ensures |r| == |sessions|
    ensures forall i :: 0 <= i < |sessions| ==> r[i] == sessions[i].pid
  {
    if sessions == [] then [] else [sessions[0].pid] + SessionPids(sessions[1..])
  }

  /** The session process ids of the device named `deviceName`, if there is one. */
  function DevicePids(p: Platform, deviceName: string): Option<seq<int>>
  {
    match FirstDevice(p.devices, deviceName)
    case None => None
    case Some(d) => Some(SessionPids(p.devices[d].sessions))
  }

  /** Index of the first process id that is not in the process table. */
  function FirstDead(pids: seq<int>, processes: map<int, string>): (r: Option<nat>)
    ensures r.Some? ==> r.value < |pids| && pids[r.value] !in processes
    ensures r.Some? ==> forall j :: 0 <= j < r.value ==> pids[j] in processes
    ensures r.None? <==> forall j :: 0 <= j < |pids| ==> pids[j] in processes
  {
    if pids == [] then None
    else if pids[0] !in processes then Some(0)
    else
      match FirstDead(pids[1..], processes)
      case None => None
      case Some(i) => Some(i + 1)
  }

  /** `application == Process.GetProcessById(pid).ProcessName` (ordinal, case-sensitive). */
  predicate Matches(processes: map<int, string>, application: string, pid: int)
  {
    pid in processes && processes[pid] == application
  }

  /** The order-preserving subsequence of `pids` whose process is named `application`. */
  function MatchingPids(pids: seq<int>, processes: map<int, string>, application: string): seq<int>
  {
    if pids == [] then []
    else
      var last := pids[|pids| - 1];
      MatchingPids(pids[..|pids| - 1], processes, application)
        + (if Matches(processes, application, last) then [last] else [])
  }

  /** The matching ids are exactly the ids of `pids` whose process has the name. */
  lemma {:induction false} MatchingPidsMembers(pids: seq<int>, processes: map<int, string>, application: string)
    ensures forall x :: x in MatchingPids(pids, processes, application) <==> x in pids && Matches(processes, application, x)
    ensures |MatchingPids(pids, processes, application)| <= |pids|
  {
    if pids != [] {
      var init := pids[..|pids| - 1];
      MatchingPidsMembers(init, processes, application);
      assert pids == init + [pids[|pids| - 1]];
    }
  }

  /** What the inner loop over the session ids yields for one application. */
  function ResolveAmong(pids: seq<int>, processes: map<int, string>, application: string): (r: Resolution)
    ensures !r.NoDevice?
  {
    match FirstDead(pids, processes)
    case Some(k) => Crashed(pids[k])
    case None => Found(MatchingPids(pids, processes, application))
  }

  /**
    What `TryGetProcessIdsByApplicationName(application, deviceName)` yields. A
    crash names a session of the device whose process is gone.
  */
  function Resolve(p: Platform, application: string, deviceName: string): (r: Resolution)
    ensures r.Crashed? ==>
              && DevicePids(p, deviceName).Some?
              && r.pid in DevicePids(p, deviceName).value
              && !Alive(p, r.pid)
  {
    match DevicePids(p, deviceName)
    case None => NoDevice
    case Some(pids) => ResolveAmong(pids, p.processes, application)
  }

  /**
    A successful resolution returns live processes of that name, and all of the
    device's sessions that belong to such a process.
  */
  lemma ResolveFound(p: Platform, application: string, deviceName: string)
    requires Resolve(p, application, deviceName).Found?
    ensures DevicePids(p, deviceName).Some?
    ensures forall x :: x in Resolve(p, application, deviceName).pids <==>
      x in DevicePids(p, deviceName).value && Alive(p, x) && p.processes[x] == application
  {
    MatchingPidsMembers(DevicePids(p, deviceName).value, p.processes, application);
  }

  /** Resolution fails exactly when no device has the name, and crashes exactly on a gone process. */
  lemma ResolveOutcomes(p: Platform, application: string, deviceName: string)
    ensures Resolve(p, application, deviceName).NoDevice? <==> FirstDevice(p.devices, deviceName).None?
    ensures Resolve(p, application, deviceName).Crashed? <==>
      FirstDevice(p.devices, deviceName).Some?
      && exists s :: s in p.devices[FirstDevice(p.devices, deviceName).value].sessions && !Alive(p, s.pid)
  {
    match FirstDevice(p.devices, deviceName)
    case None =>
    case Some(d) =>
      var sessions := p.devices[d].sessions;
      var pids := SessionPids(sessions);
      if FirstDead(pids, p.processes).Some? {
        var k := FirstDead(pids, p.processes).value;
        assert sessions[k] in sessions && !Alive(p, sessions[k].pid);
      } else {
        forall s | s in sessions
          ensures Alive(p, s.pid)
        {
          var i :| 0 <= i < |sessions| && sessions[i] == s;
          assert pids[i] == s.pid;
        }
      }
  }

  /** Volume changes do not affect resolution. */
  lemma ResolveSameTopology(p: Platform, q: Platform, application: string, deviceName: string)
    requires SameTopology(p, q)
    ensures Resolve(p, application, deviceName) == Resolve(q, application, deviceName)
  {
    FirstDeviceByNames(p.devices, q.devices, deviceName);
    match FirstDevice(p.devices, deviceName)
    case None =>
    case Some(d) =>
      assert SessionPids(p.devices[d].sessions) == SessionPids(q.devices[d].sessions);
  }

  /** `GetIMMDeviceByName`: the first active render device with that friendly name, or none. */
  method GetIMMDeviceByName(devices: seq<Device>, deviceFriendlyName: string) returns (target: Option<nat>)
    ensures target == FirstDevice(devices, deviceFriendlyName)
  {
    target := None;
    var i := 0;
    while i < |devices|
      invariant 0 <= i <= |devices|
      invariant forall j :: 0 <= j < i ==> devices[j].friendlyName != deviceFriendlyName
    {
      if devices[i].friendlyName == deviceFriendlyName {
        target := Some(i);
        break;
      }
      i := i + 1;
    }
  }

  /**
    `TryGetISimpleAudioVolumeByProcessId`: the volume control of the first session of
    `pid` on the named device. The search stops at that session even when it does
    not expose a simple volume, in which case the result is false.
  */
  method TryGetISimpleAudioVolumeByProcessId(pid: int, deviceName: string, p: Platform)
    returns (found: bool, control: Option<Handle>)
    ensures control == VolumeTarget(p, deviceName, pid)
    ensures found <==> control.Some?
  {
    control := None;
    var target := GetIMMDeviceByName(p.devices, deviceName);
    if target.None? {
      return false, None;
    }
    var d := target.value;
    var sessions := p.devices[d].sessions;
    var i := 0;
    while i < |sessions|
      invariant 0 <= i <= |sessions|
      invariant forall j :: 0 <= j < i ==> sessions[j].pid != pid
      invariant control.None?
    {
      if sessions[i].pid == pid {
        control := if sessions[i].isSimpleVolume then Some(Handle(d, i)) else None;
        break;
      }
      i := i + 1;
    }
    found := control.Some?;
  }

  /**
    `TrySetApplicationVolume`: false and nothing set when there is no volume control
    for `pid`; otherwise that control's level becomes volumeLevel / 100.
  */
  method TrySetApplicationVolume(pid: int, deviceName: string, volumeLevel: real, p: Platform)
    returns (ok: bool, q: Platform)
    ensures ok <==> VolumeTarget(p, deviceName, pid).Some?
    ensures !ok ==> q == p
    ensures ok ==> q == SetLevel(p, VolumeTarget(p, deviceName, pid).value, volumeLevel / 100.0)
    ensures SetVolume(p, deviceName, pid, volumeLevel) == if ok then Some(q) else None
  {
    var found, control := TryGetISimpleAudioVolumeByProcessId(pid, deviceName, p);
    if !found {
      return false, p;
    }
    q := SetLevel(p, control.value, volumeLevel / 100.0);
    ok := true;
  }

  /**
    `TryGetProcessesForDevice`: false with an empty list when no device has the name;
    otherwise one process id per session, in enumeration order.
  */
  method TryGetProcessesForDevice(deviceName: string, p: Platform) returns (ok: bool, pids: seq<int>)
    ensures ok <==> FirstDevice(p.devices, deviceName).Some?
    ensures !ok ==> pids == []
    ensures ok ==> |pids| == |p.devices[FirstDevice(p.devices, deviceName).value].sessions|
    ensures ok ==> forall i :: 0 <= i < |pids| ==> pids[i] == p.devices[FirstDevice(p.devices, deviceName).value].sessions[i].pid
    ensures DevicePids(p, deviceName) == if ok then Some(pids) else None
  {
    pids := [];
    var target := GetIMMDeviceByName(p.devices, deviceName);
    if target.None? {
      return false, pids;
    }
    var sessions := p.devices[target.value].sessions;
    for i := 0 to |sessions|
      invariant |pids| == i
      invariant forall j :: 0 <= j < i ==> pids[j] == sessions[j].pid
    {
      pids := pids + [sessions[i].pid];
    }
    assert pids == SessionPids(sessions);
    ok := true;
  }

  /**
    The loop both `TryGetProcessIdsByApplicationName` and `TryCreateProcessMapping`
    run over the session ids: the first id whose process is gone crashes it,
    otherwise it collects the ids whose process is named `application`.
  */
  method CollectMatches(pids: seq<int>, processes: map<int, string>, application: string) returns (r: Resolution)
    ensures r == ResolveAmong(pids, processes, application)
  {
    var matches: seq<int> := [];
    for i := 0 to |pids|
      invariant forall j :: 0 <= j < i ==> pids[j] in processes
      invariant matches == MatchingPids(pids[..i], processes, application)
    {
      var pid := pids[i];
      if pid !in processes {
        return Crashed(pid);
      }
      assert pids[..i + 1][..i] == pids[..i];
      if processes[pid] == application {
        matches := matches + [pid];
      }
    }
    assert pids[..|pids|] == pids;
    r := Found(matches);
  }

  /** `TryGetProcessIdsByApplicationName`. */
  method TryGetProcessIdsByApplicationName(application: string, deviceName: string, p: Platform)
    returns (r: Resolution)
    ensures r == Resolve(p, application, deviceName)
    ensures r.NoDevice? <==> FirstDevice(p.devices, deviceName).None?
    ensures r.Found? ==> forall x :: x in r.pids ==> Alive(p, x) && p.processes[x] == application
  {
    var ok, pids := TryGetProcessesForDevice(deviceName, p);
    if !ok {
      return NoDevice;
    }
    r := CollectMatches(pids, p.processes, application);
    if r.Found? {
      MatchingPidsMembers(pids, p.processes, application);
    }
  }

  // ---------------------------------------------------------------------------
  // TryCreateProcessMapping

  /** The exceptions that escape the mapping construction. */
  datatype Fault =
    | NullReference(pid: int)        // a session's process is gone
    | DuplicateKey(application: string)  // Dictionary.Add of an application already added

  datatype MappingBuild =
    | BuildNoDevice
    | BuildThrew(fault: Fault)
    | Built(mapping: map<string, seq<int>>)

  /** The non-empty pin values, in enumeration order. */
  function Applications(pins: seq<Setting>): (r: seq<string>)
    ensures forall a :: a in r ==> a != ""
  {
    if pins == [] then []
    else
      var last := pins[|pins| - 1];
      Applications(pins[..|pins| - 1]) + (if last.value != "" then [last.value] else [])
  }

  predicate HasDuplicate(apps: seq<string>)
  {
    exists i, j :: 0 <= i < j < |apps| && apps[i] == apps[j]
  }

  lemma {:induction false} ApplicationsMembers(pins: seq<Setting>)
    ensures forall a :: a in Applications(pins) <==> a != "" && exists i :: 0 <= i < |pins| && pins[i].value == a
  {
    if pins != [] {
      var init := pins[..|pins| - 1];
      ApplicationsMembers(init);
      forall a | a != "" && exists i :: 0 <= i < |pins| && pins[i].value == a
        ensures a in Applications(pins)
      {
        var i :| 0 <= i < |pins| && pins[i].value == a;
        if i < |pins| - 1 {
          assert init[i].value == a;
        }
      }
    }
  }

  lemma {:induction false} ApplicationsPrefix(pins: seq<Setting>, k: nat)
    requires k <= |pins|
    ensures Applications(pins[..k]) <= Applications(pins)
  {
    if k < |pins| {
      ApplicationsPrefix(pins[..|pins| - 1], k);
      assert pins[..|pins| - 1][..k] == pins[..k];
    } else {
      assert pins[..k] == pins;
    }
  }

  /** Appending an application not yet listed keeps the list free of repeats. */
  lemma AppendNewApplication(apps: seq<string>, v: string)
    requires !HasDuplicate(apps) && v !in apps
    ensures !HasDuplicate(apps + [v])
  {
    var all := apps + [v];
    forall i, j | 0 <= i < j < |all|
      ensures all[i] != all[j]
    {
      if j == |apps| {
        assert all[i] == apps[i];
      } else {
        assert all[i] == apps[i] && all[j] == apps[j];
      }
    }
  }

  /** A pin whose application already came earlier makes the application list repeat it. */
  lemma RepeatedApplication(pins: seq<Setting>, i: nat)
    requires i < |pins| && pins[i].value != "" && pins[i].value in Applications(pins[..i])
    ensures exists a, b :: 0 <= a < b < |Applications(pins)|
              && Applications(pins)[a] == pins[i].value == Applications(pins)[b]
    ensures HasDuplicate(Applications(pins))
  {
    var apps := Applications(pins[..i]);
    assert pins[..i + 1][..i] == pins[..i];
    assert Applications(pins[..i + 1]) == apps + [pins[i].value];
    var k :| 0 <= k < |apps| && apps[k] == pins[i].value;
    ApplicationsPrefix(pins, i + 1);
    var all := Applications(pins);
    assert all[k] == pins[i].value && all[|apps|] == pins[i].value;
  }

  /**
    `TryCreateProcessMapping`: for every pin with a non-empty value, an entry from
    that application to its matching session process ids (possibly empty). It is
    false when no device has the name, and it throws on a session whose process is
    gone (once some pin is non-empty) and on a second pin with the same application.
  */
  method TryCreateProcessMapping(pinMapping: seq<Setting>, deviceName: string, p: Platform)
    returns (r: MappingBuild)
    ensures r.BuildNoDevice? <==> DevicePids(p, deviceName).None?
    ensures r.Built? ==>
              && (forall a :: a in r.mapping <==> a in Applications(pinMapping))
              && (forall a :: a in r.mapping ==> r.mapping[a] == MatchingPids(DevicePids(p, deviceName).value, p.processes, a))
    ensures r.Built? <==>
              && DevicePids(p, deviceName).Some?
              && (Applications(pinMapping) == []
                  || (FirstDead(DevicePids(p, deviceName).value, p.processes).None? && !HasDuplicate(Applications(pinMapping))))
    ensures r.BuildThrew? && r.fault.NullReference? ==>
              && DevicePids(p, deviceName).Some?
              && Applications(pinMapping) != []
              && ResolveAmong(DevicePids(p, deviceName).value, p.processes, "") == Crashed(r.fault.pid)
    ensures r.BuildThrew? && r.fault.DuplicateKey? ==>
              && FirstDead(DevicePids(p, deviceName).value, p.processes).None?
              && exists i, j :: 0 <= i < j < |Applications(pinMapping)|
                  && Applications(pinMapping)[i] == r.fault.application == Applications(pinMapping)[j]
  {
    var ok, pids := TryGetProcessesForDevice(deviceName, p);
    if !ok {
      return BuildNoDevice;
    }
    r := MapApplications(pinMapping, pids, p.processes);
  }

  /** What the loop of `TryCreateProcessMapping` has built after the pins `pins`. */
  ghost predicate MappedPrefix(pins: seq<Setting>, pids: seq<int>, processes: map<int, string>, mapping: map<string, seq<int>>)
  {
    && (forall a :: a in mapping <==> a in Applications(pins))
    && (forall a :: a in mapping ==> mapping[a] == MatchingPids(pids, processes, a))
    && !HasDuplicate(Applications(pins))
    && (Applications(pins) != [] ==> FirstDead(pids, processes).None?)
  }

  /** A pin with an empty value leaves what is built unchanged. */
  lemma MappedSkip(pins: seq<Setting>, i: nat, pids: seq<int>, processes: map<int, string>, mapping: map<string, seq<int>>)
    requires i < |pins| && pins[i].value == "" && MappedPrefix(pins[..i], pids, processes, mapping)
    ensures MappedPrefix(pins[..i + 1], pids, processes, mapping)
  {
    assert pins[..i + 1][..i] == pins[..i];
    assert Applications(pins[..i + 1]) == Applications(pins[..i]);
  }

  /** A new application whose sessions' processes all exist is added with its matching ids. */
  lemma MappedAdd(pins: seq<Setting>, i: nat, pids: seq<int>, processes: map<int, string>, mapping: map<string, seq<int>>)
    requires i < |pins| && pins[i].value != "" && pins[i].value !in mapping
    requires FirstDead(pids, processes).None? && MappedPrefix(pins[..i], pids, processes, mapping)
    ensures MappedPrefix(pins[..i + 1], pids, processes, mapping[pins[i].value := MatchingPids(pids, processes, pins[i].value)])
  {
    var apps := Applications(pins[..i]);
    assert pins[..i + 1][..i] == pins[..i];
    assert Applications(pins[..i + 1]) == apps + [pins[i].value];
    AppendNewApplication(apps, pins[i].value);
  }

  /**
    One pass of the loop of `TryCreateProcessMapping`: the pin `i` is skipped when
    empty, throws on a gone process or a repeated application, and is added otherwise.
  */
  method MapPin(pinMapping: seq<Setting>, i: nat, pids: seq<int>, processes: map<int, string>, mapping: map<string, seq<int>>)
    returns (r: MappingBuild)
    requires i < |pinMapping| && MappedPrefix(pinMapping[..i], pids, processes, mapping)
    ensures !r.BuildNoDevice?
    ensures r.Built? ==> MappedPrefix(pinMapping[..i + 1], pids, processes, r.mapping)
    ensures r.BuildThrew? ==> Applications(pinMapping) != [] && (FirstDead(pids, processes).Some? || HasDuplicate(Applications(pinMapping)))
    ensures r.BuildThrew? && r.fault.NullReference? ==> ResolveAmong(pids, processes, "") == Crashed(r.fault.pid)
    ensures r.BuildThrew? && r.fault.DuplicateKey? ==>
              && FirstDead(pids, processes).None?
              && exists a, b :: 0 <= a < b < |Applications(pinMapping)|
                  && Applications(pinMapping)[a] == r.fault.application == Applications(pinMapping)[b]
  {
    var pin := pinMapping[i];
    if pin.value == "" {
      MappedSkip(pinMapping, i, pids, processes, mapping);
      return Built(mapping);
    }
    assert pinMapping[..i + 1][..i] == pinMapping[..i];
    assert Applications(pinMapping[..i + 1]) == Applications(pinMapping[..i]) + [pin.value];
    ApplicationsPrefix(pinMapping, i + 1);
    var found := CollectMatches(pids, processes, pin.value);
    if found.Crashed? {
      return BuildThrew(NullReference(found.pid));
    }
    if pin.value in mapping {
      RepeatedApplication(pinMapping, i);
      return BuildThrew(DuplicateKey(pin.value));
    }
    MappedAdd(pinMapping, i, pids, processes, mapping);
    r := Built(mapping[pin.value := found.pids]);
  }

  /** The loop over the pins of `TryCreateProcessMapping`, once the device's session ids are known. */
  method MapApplications(pinMapping: seq<Setting>, pids: seq<int>, processes: map<int, string>)
    returns (r: MappingBuild)
    ensures !r.BuildNoDevice?
    ensures r.Built? ==>
              && (forall a :: a in r.mapping <==> a in Applications(pinMapping))
              && (forall a :: a in r.mapping ==> r.mapping[a] == MatchingPids(pids, processes, a))
    ensures r.Built? <==>
              Applications(pinMapping) == [] || (FirstDead(pids, processes).None? && !HasDuplicate(Applications(pinMapping)))
    ensures r.BuildThrew? && r.fault.NullReference? ==>
              Applications(pinMapping) != [] && ResolveAmong(pids, processes, "") == Crashed(r.fault.pid)
    ensures r.BuildThrew? && r.fault.DuplicateKey? ==>
              && FirstDead(pids, processes).None?
              && exists i, j :: 0 <= i < j < |Applications(pinMapping)|
                  && Applications(pinMapping)[i] == r.fault.application == Applications(pinMapping)[j]
  {
    var mapping: map<string, seq<int>> := map[];
    for i := 0 to |pinMapping|
      invariant MappedPrefix(pinMapping[..i], pids, processes, mapping)
    {
      var step := MapPin(pinMapping, i, pids, processes, mapping);
      if !step.Built? {
        return step;
      }
      mapping := step.mapping;
    }
    assert pinMapping[..|pinMapping|] == pinMapping;
    r := Built(mapping);
  }
}
