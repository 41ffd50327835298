/**
  The console project's volume helper (VolMixerConsole/VolMixerHelper.cs): read and
  write the master volume of one process's audio session on a named render device,
  in percent, over the platform snapshot of `Audio`.
*/
module LegacyHelper {
  import opened Wrappers
  import opened Audio

  class VolMixerHelper {
    /** The logger field; the constructor never stores its argument, so it stays unset. */
    const log: Option<string>

    constructor (pLog: string)
      ensures log.None?
    {
      log := None;
    }

    /**
      `GetVolumeObject`: the first active render device whose friendly name is
      `pDeviceName`, then on it the first session of `pProcessId`; the result is
      that session's simple volume, if the session exposes one.
    */
    method GetVolumeObject(pProcessId: int, pDeviceName: string, p: Platform) returns (found: bool, control: Option<Handle>)
      ensures control == VolumeTarget(p, pDeviceName, pProcessId)
      ensures found <==> control.Some?
    {
      control := None;
      var targetDevice: Option<nat> := None;
      for i := 0 to |p.devices|
        invariant forall j :: 0 <= j < i ==> p.devices[j].friendlyName != pDeviceName
      {
        if p.devices[i].friendlyName == pDeviceName {
          targetDevice := Some(i);
          break;
        }
      }
      if targetDevice.None? {
        return false, None;
      }
      var d := targetDevice.value;
      var sessions := p.devices[d].sessions;
      for i := 0 to |sessions|
        invariant forall j :: 0 <= j < i ==> sessions[j].pid != pProcessId
      {
        if sessions[i].pid == pProcessId {
          control := if sessions[i].isSimpleVolume then Some(Handle(d, i)) else None;
          break;
        }
      }
      found := control.Some?;
    }

    /** `TryGetApplicationVolume`: the session's level times 100, or false without a control. */
    method TryGetApplicationVolume(pProcessId: int, pDeviceName: string, p: Platform) returns (ok: bool, oVolume: Option<real>)
      ensures oVolume == GetVolume(p, pDeviceName, pProcessId)
      ensures ok <==> VolumeTarget(p, pDeviceName, pProcessId).Some?
      ensures ok ==> oVolume == Some(SessionAt(p, VolumeTarget(p, pDeviceName, pProcessId).value).level * 100.0)
    {
      var found, control := GetVolumeObject(pProcessId, pDeviceName, p);
      if !found {
        return false, None;
      }
      var level := SessionAt(p, control.value).level;
      return true, Some(level * 100.0);
    }

    /** `TrySetApplicationVolume`: the session's level becomes pVolumeLevel / 100, or false without a control. */
    method TrySetApplicationVolume(pProcessId: int, pDeviceName: string, pVolumeLevel: real, p: Platform)
      returns (ok: bool, q: Platform)
      ensures ok <==> VolumeTarget(p, pDeviceName, pProcessId).Some?
      ensures !ok ==> q == p
      ensures ok ==> q == SetLevel(p, VolumeTarget(p, pDeviceName, pProcessId).value, pVolumeLevel / 100.0)
      ensures SetVolume(p, pDeviceName, pProcessId, pVolumeLevel) == if ok then Some(q) else None
    {
      var found, control := GetVolumeObject(pProcessId, pDeviceName, p);
      if !found {
        return false, p;
      }
      q := SetLevel(p, control.value, pVolumeLevel / 100.0);
      ok := true;
    }
  }
}
