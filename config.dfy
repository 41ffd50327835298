/**
  The configuration record of the current engine (VolMixer/Components/VolMixerConfig.cs)
  and the ordered string dictionary both engines read their pin or port mapping from.
*/
module Config {
  import opened Wrappers

  /** One entry of an `IDictionary<string, string>`; a null value is modelled as "". */
  datatype Setting = Setting(key: string, value: string)

  /** `TryGetValue(key)`: the value of the (first) entry with that key. */
  function Lookup(settings: seq<Setting>, key: string): (r: Option<string>)
    ensures r.Some? <==> exists i :: 0 <= i < |settings| && settings[i].key == key
    ensures r.Some? ==> exists i :: 0 <= i < |settings| && settings[i] == Setting(key, r.value)
  {
    if settings == [] then None
    else if settings[0].key == key then Some(settings[0].value)
    else
      var r := Lookup(settings[1..], key);
      assert r.Some? ==> exists i :: 0 <= i < |settings| - 1 && settings[1..][i] == Setting(key, r.value);
      r
  }

  /**
    The mutable configuration shared between the host and the engine. Every
    property has a public setter, so the fields are plain `var`s; the engine
    overwrites entries of `processMapping` through its reference to this object.
  */
  class VolMixerConfig {
    var portname: string
    var baudrate: int
    var maxRetries: int
    var deviceName: string
    var pinMapping: seq<Setting>
    var processMapping: map<string, seq<int>>

    /** Stores its six arguments unchanged; no argument is checked. */
    constructor (portname: string, baudrate: int, maxRetries: int, deviceName: string,
                 pinMapping: seq<Setting>, processMapping: map<string, seq<int>>)
      ensures this.portname == portname && this.baudrate == baudrate
      ensures this.maxRetries == maxRetries && this.deviceName == deviceName
      ensures this.pinMapping == pinMapping && this.processMapping == processMapping
    {
      this.portname := portname;
      this.baudrate := baudrate;
      this.maxRetries := maxRetries;
      this.deviceName := deviceName;
      this.pinMapping := pinMapping;
      this.processMapping := processMapping;
    }
  }
}
