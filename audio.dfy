/**
  The platform the engines talk to, as a value: the active render devices in
  enumeration order, each with its audio sessions in enumeration order, and the
  OS process table (live process id -> process name). A session's `isSimpleVolume`
  says whether the `ctl as ISimpleAudioVolume` cast succeeds for it; `level` is the
  master volume the session reports. The platform accepts only levels in [0, 1]:
  `SetMasterVolume` refuses any other level with E_INVALIDARG and changes nothing.
*/
module Audio {
  import opened Wrappers

  datatype Session = Session(pid: int, isSimpleVolume: bool, level: real)

  datatype Device = Device(friendlyName: string, sessions: seq<Session>)

  datatype Platform = Platform(devices: seq<Device>, processes: map<int, string>)

  /** A volume control: the session `session` of the device `device`. */
  datatype Handle = Handle(device: nat, session: nat)

  /** `Process.GetProcessById(pid)` succeeds. */
  predicate Alive(p: Platform, pid: int)
  {
    pid in p.processes
  }

  /** Index of the first device whose friendly name is `name`. */
  function FirstDevice(devices: seq<Device>, name: string): (r: Option<nat>)
    ensures r.Some? ==> r.value < |devices| && devices[r.value].friendlyName == name
    ensures r.Some? ==> forall j :: 0 <= j < r.value ==> devices[j].friendlyName != name
    ensures r.None? <==> forall j :: 0 <= j < |devices| ==> devices[j].friendlyName != name
  {
    if devices == [] then None
    else if devices[0].friendlyName == name then Some(0)
    else
      match FirstDevice(devices[1..], name)
      case None => None
      case Some(i) => Some(i + 1)
  }

  /** Index of the first session that belongs to process `pid`. */
  function FirstSession(sessions: seq<Session>, pid: int): (r: Option<nat>)
    ensures r.Some? ==> r.value < |sessions| && sessions[r.value].pid == pid
    ensures r.Some? ==> forall j :: 0 <= j < r.value ==> sessions[j].pid != pid
    ensures r.None? <==> forall j :: 0 <= j < |sessions| ==> sessions[j].pid != pid
  {
    if sessions == [] then None
    else if sessions[0].pid == pid then Some(0)
    else
      match FirstSession(sessions[1..], pid)
      case None => None
      case Some(i) => Some(i + 1)
  }

  predicate ValidHandle(p: Platform, h: Handle)
  {
    h.device < |p.devices| && h.session < |p.devices[h.device].sessions|
  }

  function SessionAt(p: Platform, h: Handle): Session
    requires ValidHandle(p, h)
  {
    p.devices[h.device].sessions[h.session]
  }

  /**
    The volume control for `pid` on the device named `deviceName`: first device
    with that name, then its first session of that process, provided that session
    exposes a simple volume (the search stops at the first session either way).
  */
  function VolumeTarget(p: Platform, deviceName: string, pid: int): (r: Option<Handle>)
    ensures r.Some? ==>
              && ValidHandle(p, r.value)
              && SessionAt(p, r.value).pid == pid
              && SessionAt(p, r.value).isSimpleVolume
              && p.devices[r.value.device].friendlyName == deviceName
    ensures r.Some? ==>
              && FirstDevice(p.devices, deviceName) == Some(r.value.device)
              && FirstSession(p.devices[r.value.device].sessions, pid) == Some(r.value.session)
    ensures r.None? <==>
              || FirstDevice(p.devices, deviceName).None?
              || (var sessions := p.devices[FirstDevice(p.devices, deviceName).value].sessions;
                  || FirstSession(sessions, pid).None?
                  || !sessions[FirstSession(sessions, pid).value].isSimpleVolume)
  {
    match FirstDevice(p.devices, deviceName)
    case None => None
    case Some(d) =>
      match FirstSession(p.devices[d].sessions, pid)
      case None => None
      case Some(s) => if p.devices[d].sessions[s].isSimpleVolume then Some(Handle(d, s)) else None
  }

  /** Everything but the session levels: what device and session lookups depend on. */
  ghost predicate SameTopology(p: Platform, q: Platform)
  {
    && p.processes == q.processes
    && |p.devices| == |q.devices|
    && (forall i :: 0 <= i < |p.devices| ==>
          p.devices[i].friendlyName == q.devices[i].friendlyName
          && |p.devices[i].sessions| == |q.devices[i].sessions|)
    && (forall i, j :: 0 <= i < |p.devices| && 0 <= j < |p.devices[i].sessions| ==>
          p.devices[i].sessions[j].pid == q.devices[i].sessions[j].pid
          && p.devices[i].sessions[j].isSimpleVolume == q.devices[i].sessions[j].isSimpleVolume)
  }

  /** A level `SetMasterVolume` accepts. */
  predicate ValidLevel(level: real)
  {
    0.0 <= level <= 1.0
  }

  /**
    `SetMasterVolume(level)` on the control `h`: that one session changes, nothing
    else; a level outside [0, 1] is refused and nothing changes at all.
  */
  function SetLevel(p: Platform, h: Handle, level: real): (r: Platform)
    requires ValidHandle(p, h)
    ensures ValidHandle(r, h) && SessionAt(r, h).level == if ValidLevel(level) then level else SessionAt(p, h).level
    ensures !ValidLevel(level) ==> r == p
    ensures SameTopology(p, r)
    ensures forall i, j :: 0 <= i < |p.devices| && 0 <= j < |p.devices[i].sessions| && (i, j) != (h.device, h.session) ==>
      r.devices[i].sessions[j] == p.devices[i].sessions[j]
  {
    if !ValidLevel(level) then p
    else
      var d := p.devices[h.device];
      var s := d.sessions[h.session];
      p.(devices := p.devices[h.device := d.(sessions := d.sessions[h.session := s.(level := level)])])
  }

  /**
    Setting the volume of `pid` to `volume` percent: the level written is
    volume / 100; None when there is no volume control for the process.
  */
  function SetVolume(p: Platform, deviceName: string, pid: int, volume: real): Option<Platform>
  {
    match VolumeTarget(p, deviceName, pid)
    case None => None
    case Some(h) => Some(SetLevel(p, h, volume / 100.0))
  }

  /** Reading the volume of `pid` in percent: level * 100. */
  function GetVolume(p: Platform, deviceName: string, pid: int): Option<real>
  {
    match VolumeTarget(p, deviceName, pid)
    case None => None
    case Some(h) => Some(SessionAt(p, h).level * 100.0)
  }

  /** Device lookups see only names, so they agree on sequences with the same names. */
  lemma {:induction false} FirstDeviceByNames(a: seq<Device>, b: seq<Device>, name: string)
    requires |a| == |b| && forall i :: 0 <= i < |a| ==> a[i].friendlyName == b[i].friendlyName
    ensures FirstDevice(a, name) == FirstDevice(b, name)
  {
    if a != [] {
      FirstDeviceByNames(a[1..], b[1..], name);
    }
  }

  /** Session lookups see only process ids. */
  lemma {:induction false} FirstSessionByPids(a: seq<Session>, b: seq<Session>, pid: int)
    requires |a| == |b| && forall i :: 0 <= i < |a| ==> a[i].pid == b[i].pid
    ensures FirstSession(a, pid) == FirstSession(b, pid)
  {
    if a != [] {
      FirstSessionByPids(a[1..], b[1..], pid);
    }
  }

  lemma SameTopologyVolumeTarget(p: Platform, q: Platform, deviceName: string, pid: int)
    requires SameTopology(p, q)
    ensures VolumeTarget(p, deviceName, pid) == VolumeTarget(q, deviceName, pid)
  {
    FirstDeviceByNames(p.devices, q.devices, deviceName);
    match FirstDevice(p.devices, deviceName)
    case None =>
    case Some(d) =>
      FirstSessionByPids(p.devices[d].sessions, q.devices[d].sessions, pid);
  }

  /**
    A volume in [0, 100] that was set reads back unchanged (level / 100 * 100 on
    reals); any other volume is refused and the previous volume reads back.
  */
  lemma SetThenGet(p: Platform, deviceName: string, pid: int, volume: real)
    requires SetVolume(p, deviceName, pid, volume).Some?
    ensures GetVolume(SetVolume(p, deviceName, pid, volume).value, deviceName, pid)
         == if 0.0 <= volume <= 100.0 then Some(volume) else GetVolume(p, deviceName, pid)
  {
    var h := VolumeTarget(p, deviceName, pid).value;
    var q := SetLevel(p, h, volume / 100.0);
    SameTopologyVolumeTarget(p, q, deviceName, pid);
  }

  /** Setting the same volume twice leaves the platform as setting it once. */
  lemma SetVolumeIdempotent(p: Platform, deviceName: string, pid: int, volume: real)
    requires SetVolume(p, deviceName, pid, volume).Some?
    ensures SetVolume(SetVolume(p, deviceName, pid, volume).value, deviceName, pid, volume)
         == SetVolume(p, deviceName, pid, volume)
  {
    var h := VolumeTarget(p, deviceName, pid).value;
    var q := SetLevel(p, h, volume / 100.0);
    SameTopologyVolumeTarget(p, q, deviceName, pid);
    if !ValidLevel(volume / 100.0) {
      return;
    }
    var d := q.devices[h.device];
    assert d.sessions[h.session := d.sessions[h.session].(level := volume / 100.0)] == d.sessions;
    assert q.devices[h.device := d.(sessions := d.sessions)] == q.devices;
  }

  /** A set fails exactly when a read of the same process would fail. */
  lemma SetFailsIffGetFails(p: Platform, deviceName: string, pid: int, volume: real)
    ensures SetVolume(p, deviceName, pid, volume).None? <==> GetVolume(p, deviceName, pid).None?
  {
  }

  /** Sharing the topology is transitive. */
  lemma SameTopologyTrans(a: Platform, b: Platform, c: Platform)
    requires SameTopology(a, b) && SameTopology(b, c)
    ensures SameTopology(a, c)
  {
  }

  /** A successful set changes only session levels. */
  lemma SetVolumeKeepsTopology(p: Platform, deviceName: string, pid: int, volume: real)
    requires SetVolume(p, deviceName, pid, volume).Some?
    ensures SameTopology(p, SetVolume(p, deviceName, pid, volume).value)
  {
  }
}
