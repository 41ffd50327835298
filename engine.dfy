/**
  The current engine (VolMixer/Components/VolMixer.cs): it opens the serial port with
  bounded retries, then for every line read decodes "<channel>:<volume>", finds the
  application of pin "Pin_<channel>" and its cached process ids, re-resolves the ids
  when the cached list is empty or an id is no longer alive, and sets the volume of
  every id in the resulting list.

  The platform is a snapshot (`Audio.Platform`) for one line: setting volumes changes
  session levels only, so liveness and resolution are the same throughout a line.
  Float parsing is the partial function `parse`. Logging is left out.
*/
module Engine {
  import opened Wrappers
  import opened Text
  import opened Audio
  import opened Config
  import opened Serial
  import opened Helper

  // ---------------------------------------------------------------------------
  // Line decoding: TryGetInfoFromSerial

  /** Why `TryGetInfoFromSerial` returns false; the checks run in this order. */
  datatype Rejection =
    | FieldCount         // the line does not split into exactly two fields
    | UnknownPin         // no "Pin_<channel>" key in the pin mapping
    | EmptyApplication   // the key maps to an empty (or null) application
    | NoProcessMapping   // the application has no entry in the process mapping
    | BadVolume          // the second field does not parse as a float

  datatype LineInfo = LineInfo(application: string, processIds: seq<int>, volume: real)

  function TryGetInfoFromSerial(value: string, pinMapping: seq<Setting>, processMapping: map<string, seq<int>>,
                                parse: string -> Option<real>): (r: Result<LineInfo, Rejection>)
    ensures r == Err(FieldCount) <==> Count(value, ':') != 1
    ensures r.Ok? ==>
              && |Split(value, ':')| == 2
              && Lookup(pinMapping, PinName(Split(value, ':')[0])) == Some(r.value.application)
              && r.value.application != ""
              && r.value.application in processMapping
              && r.value.processIds == processMapping[r.value.application]
              && parse(Split(value, ':')[1]) == Some(r.value.volume)
  {
    SplitCount(value, ':');
    var values := Split(value, ':');
    if |values| != 2 then Err(FieldCount)
    else
      match Lookup(pinMapping, PinName(values[0]))
      case None => Err(UnknownPin)
      case Some(application) =>
        if application == "" then Err(EmptyApplication)
        else if application !in processMapping then Err(NoProcessMapping)
        else
          match parse(values[1])
          case None => Err(BadVolume)
          case Some(volume) => Ok(LineInfo(application, processMapping[application], volume))
  }

  /**
    The checks run in a fixed order and the first that fails decides: a line is
    only rejected for a reason when every earlier check passed.
  */
  lemma DecodeRejectsInOrder(value: string, pinMapping: seq<Setting>, processMapping: map<string, seq<int>>,
                             parse: string -> Option<real>)
    requires Count(value, ':') == 1
    ensures var fields := Split(value, ':');
            var r := TryGetInfoFromSerial(value, pinMapping, processMapping, parse);
            var app := Lookup(pinMapping, PinName(fields[0]));
            && |fields| == 2
            && (r == Err(UnknownPin) <==> app.None?)
            && (r == Err(EmptyApplication) <==> app == Some(""))
            && (r == Err(NoProcessMapping) <==> app.Some? && app.value != "" && app.value !in processMapping)
            && (r == Err(BadVolume) <==>
                  app.Some? && app.value != "" && app.value in processMapping && parse(fields[1]).None?)
  {
    SplitCount(value, ':');
  }

  /**
    A well-formed line "<channel>:<text>" decodes to the application of pin
    "Pin_<channel>", its cached ids and the parsed volume.
  */
  lemma DecodeWellFormed(channel: string, text: string, pinMapping: seq<Setting>,
                         processMapping: map<string, seq<int>>, parse: string -> Option<real>,
                         application: string, volume: real)
    requires ':' !in channel && ':' !in text
    requires Lookup(pinMapping, PinName(channel)) == Some(application) && application != ""
    requires application in processMapping
    requires parse(text) == Some(volume)
    ensures TryGetInfoFromSerial(channel + ":" + text, pinMapping, processMapping, parse)
         == Ok(LineInfo(application, processMapping[application], volume))
  {
    SplitTwoFields(channel, text, ':');
    SplitCount(channel + ":" + text, ':');
  }

  /**
    A mapping holding every configured application, as `TryCreateProcessMapping`
    builds it, never rejects a line for lack of a mapping: `NoProcessMapping`
    only arises for a mapping built elsewhere.
  */
  lemma BuiltMappingCoversPins(value: string, pinMapping: seq<Setting>, processMapping: map<string, seq<int>>,
                               parse: string -> Option<real>)
    requires forall a :: a in processMapping <==> a in Applications(pinMapping)
    ensures TryGetInfoFromSerial(value, pinMapping, processMapping, parse) != Err(NoProcessMapping)
  {
    SplitCount(value, ':');
    var values := Split(value, ':');
    if |values| == 2 {
      var app := Lookup(pinMapping, PinName(values[0]));
      if app.Some? && app.value != "" {
        ApplicationsMembers(pinMapping);
        var i :| 0 <= i < |pinMapping| && pinMapping[i] == Setting(PinName(values[0]), app.value);
        assert pinMapping[i].value == app.value;
      }
    }
  }

  // ---------------------------------------------------------------------------
  // What one line does, as a function of the state before it

  /** One `TrySetApplicationVolume(pid, deviceName, volume)` call and its result. */
  datatype VolumeCall = VolumeCall(pid: int, volume: real, ok: bool)

  datatype LineOutcome =
    | Blank                                             // empty line, skipped
    | Rejected(reason: Rejection)                       // TryGetInfoFromSerial false
    | Unresolved                                        // empty cached list could not be re-resolved
    | Threw(pid: int)                                   // a resolution's NullReferenceException escapes Run
    | Applied(resolutions: nat, calls: seq<VolumeCall>) // resolutions made, then one call per id

  datatype Effect = Effect(outcome: LineOutcome, mapping: map<string, seq<int>>, platform: Platform)

  datatype Fan = Fan(calls: seq<VolumeCall>, platform: Platform)

  /** The fan-out loop: one call per id, in order, whatever the earlier calls returned. */
  function FanOut(p: Platform, deviceName: string, pids: seq<int>, volume: real): (r: Fan)
    ensures |r.calls| == |pids|
  {
    if pids == [] then Fan([], p)
    else
      var before := FanOut(p, deviceName, pids[..|pids| - 1], volume);
      var pid := pids[|pids| - 1];
      match SetVolume(before.platform, deviceName, pid, volume)
      case None => Fan(before.calls + [VolumeCall(pid, volume, false)], before.platform)
      case Some(q) => Fan(before.calls + [VolumeCall(pid, volume, true)], q)
  }

  /** Number of ids in `pids` whose process is gone. */
  function DeadCount(pids: seq<int>, processes: map<int, string>): (n: nat)
    ensures n == 0 <==> FirstDead(pids, processes).None?
  {
    if pids == [] then 0
    else
      DeadCount(pids[..|pids| - 1], processes) + (if pids[|pids| - 1] !in processes then 1 else 0)
  }

  /** What the liveness check leaves behind: the ids to fan out to, or an escaping exception. */
  datatype Repair =
    | Repaired(dead: nat, ids: seq<int>, mapping: map<string, seq<int>>)
    | RepairThrew(pid: int)

  /** Dead ids of a prefix are dead ids of the whole list. */
  lemma {:induction false} DeadCountPrefix(ids: seq<int>, n: nat, processes: map<int, string>)
    requires n <= |ids|
    ensures DeadCount(ids[..n], processes) <= DeadCount(ids, processes)
    decreases |ids|
  {
    if n < |ids| {
      DeadCountPrefix(ids[..|ids| - 1], n, processes);
      assert ids[..|ids| - 1][..n] == ids[..n];
    } else {
      assert ids[..n] == ids;
    }
  }

  /**
    The state of the liveness check after the first `n` ids of `ids`: every dead
    id triggers one resolution; a successful one replaces the list (in the mapping
    and for the fan-out), a failed one moves on to the next id. Resolutions all see
    the same platform, so they agree with the first one.
  */
  function RepairAfter(application: string, ids: seq<int>, n: nat, mapping: map<string, seq<int>>,
                       deviceName: string, p: Platform): Repair
    requires n <= |ids|
  {
    var dead := DeadCount(ids[..n], p.processes);
    if dead == 0 then Repaired(0, ids, mapping)
    else
      match Resolve(p, application, deviceName)
      case NoDevice => Repaired(dead, ids, mapping)
      case Crashed(pid) => RepairThrew(pid)
      case Found(renewed) => Repaired(dead, renewed, mapping[application := renewed])
  }

  /** The whole liveness check over the list `ids` the line works with. */
  function RepairIds(application: string, ids: seq<int>, mapping: map<string, seq<int>>,
                     deviceName: string, p: Platform): (r: Repair)
    ensures r.Repaired? ==> r.dead == DeadCount(ids, p.processes)
    ensures r.Repaired? && r.dead == 0 ==> r.ids == ids && r.mapping == mapping
    ensures r.Repaired? && r.dead > 0 ==>
              && r.ids == (if Resolve(p, application, deviceName).Found? then Resolve(p, application, deviceName).pids else ids)
              && r.mapping == (if Resolve(p, application, deviceName).Found? then mapping[application := r.ids] else mapping)
    ensures r.RepairThrew? <==> FirstDead(ids, p.processes).Some? && Resolve(p, application, deviceName).Crashed?
  {
    assert ids[..|ids|] == ids;
    RepairAfter(application, ids, |ids|, mapping, deviceName, p)
  }

  /** One more id checked: a live id changes nothing, a dead one triggers one resolution. */
  lemma RepairStep(application: string, ids: seq<int>, i: nat, mapping: map<string, seq<int>>,
                   deviceName: string, p: Platform)
    requires i < |ids| && RepairAfter(application, ids, i, mapping, deviceName, p).Repaired?
    ensures var before := RepairAfter(application, ids, i, mapping, deviceName, p);
            var after := RepairAfter(application, ids, i + 1, mapping, deviceName, p);
            && (ids[i] in p.processes ==> after == before)
            && (ids[i] !in p.processes ==>
                  after == match Resolve(p, application, deviceName)
                           case NoDevice => Repaired(before.dead + 1, before.ids, before.mapping)
                           case Crashed(pid) => RepairThrew(pid)
                           case Found(renewed) => Repaired(before.dead + 1, renewed, before.mapping[application := renewed]))
  {
    assert ids[..i + 1][..i] == ids[..i];
    var r := Resolve(p, application, deviceName);
    if r.Found? {
      assert mapping[application := r.pids][application := r.pids] == mapping[application := r.pids];
    }
  }

  /** Once a resolution has thrown, the rest of the list does not matter. */
  lemma RepairThrewStays(application: string, ids: seq<int>, n: nat, mapping: map<string, seq<int>>,
                         deviceName: string, p: Platform)
    requires n <= |ids| && RepairAfter(application, ids, n, mapping, deviceName, p).RepairThrew?
    ensures RepairIds(application, ids, mapping, deviceName, p) == RepairAfter(application, ids, n, mapping, deviceName, p)
  {
    DeadCountPrefix(ids, n, p.processes);
    assert ids[..|ids|] == ids;
  }

  /** Liveness check, then fan-out, from the list `ids`, with `resolutions` already made. */
  function RepairAndApply(application: string, ids: seq<int>, mapping: map<string, seq<int>>, resolutions: nat,
                          deviceName: string, p: Platform, volume: real): Effect
  {
    match RepairIds(application, ids, mapping, deviceName, p)
    case RepairThrew(pid) => Effect(Threw(pid), mapping, p)
    case Repaired(dead, final, m) =>
      var fan := FanOut(p, deviceName, final, volume);
      Effect(Applied(resolutions + dead, fan.calls), m, fan.platform)
  }

  /** A decoded line: an empty cached list is resolved first, then liveness check and fan-out. */
  function ApplyInfo(info: LineInfo, mapping: map<string, seq<int>>, deviceName: string, p: Platform): Effect
  {
    if info.processIds == [] then
      match Resolve(p, info.application, deviceName)
      case NoDevice => Effect(Unresolved, mapping, p)
      case Crashed(pid) => Effect(Threw(pid), mapping, p)
      case Found(renewed) =>
        RepairAndApply(info.application, renewed, mapping[info.application := renewed], 1, deviceName, p, info.volume)
    else
      RepairAndApply(info.application, info.processIds, mapping, 0, deviceName, p, info.volume)
  }

  /**
    The effect of one line read by `Run` on the outcome, the process mapping and
    the platform. A line never adds or removes a mapping entry, and only a line
    whose volume is applied touches the platform.
  */
  function LineEffect(pinMapping: seq<Setting>, mapping: map<string, seq<int>>, deviceName: string,
                      line: string, p: Platform, parse: string -> Option<real>): (r: Effect)
    ensures r.mapping.Keys == mapping.Keys
    ensures !r.outcome.Applied? ==> r.platform == p
  {
    if line == "" then Effect(Blank, mapping, p)
    else
      match TryGetInfoFromSerial(line, pinMapping, mapping, parse)
      case Err(e) => Effect(Rejected(e), mapping, p)
      case Ok(info) => ApplyInfo(info, mapping, deviceName, p)
  }

  // ---------------------------------------------------------------------------
  // Properties of one line

  /** Setting volumes one id after the other changes only session levels. */
  lemma {:induction false} FanOutKeepsTopology(p: Platform, deviceName: string, pids: seq<int>, volume: real)
    ensures SameTopology(p, FanOut(p, deviceName, pids, volume).platform)
  {
    if pids != [] {
      var init := pids[..|pids| - 1];
      FanOutKeepsTopology(p, deviceName, init, volume);
      var before := FanOut(p, deviceName, init, volume);
      var last := pids[|pids| - 1];
      if SetVolume(before.platform, deviceName, last, volume).Some? {
        SetVolumeKeepsTopology(before.platform, deviceName, last, volume);
        SameTopologyTrans(p, before.platform, SetVolume(before.platform, deviceName, last, volume).value);
      }
    }
  }

  /** Calls go to the given ids, in order, each with the volume; a failed call does not stop the rest. */
  lemma {:induction false} FanOutCalls(p: Platform, deviceName: string, pids: seq<int>, volume: real)
    ensures forall i :: 0 <= i < |pids| ==>
              FanOut(p, deviceName, pids, volume).calls[i].pid == pids[i]
              && FanOut(p, deviceName, pids, volume).calls[i].volume == volume
    ensures SameTopology(p, FanOut(p, deviceName, pids, volume).platform)
  {
    FanOutKeepsTopology(p, deviceName, pids, volume);
    if pids != [] {
      var init := pids[..|pids| - 1];
      FanOutCalls(p, deviceName, init, volume);
      FanOutLast(p, deviceName, pids, volume);
      var before := FanOut(p, deviceName, init, volume).calls;
      var r := FanOut(p, deviceName, pids, volume).calls;
      forall i | 0 <= i < |init|
        ensures r[i].pid == pids[i] && r[i].volume == volume
      {
        assert r[i] == before[i] && init[i] == pids[i];
      }
    }
  }

  /** The last id's call is appended after the calls for the ids before it. */
  lemma FanOutLast(p: Platform, deviceName: string, pids: seq<int>, volume: real)
    requires pids != []
    ensures var r := FanOut(p, deviceName, pids, volume);
            && r.calls == FanOut(p, deviceName, pids[..|pids| - 1], volume).calls + [r.calls[|pids| - 1]]
            && r.calls[|pids| - 1].pid == pids[|pids| - 1] && r.calls[|pids| - 1].volume == volume
  {
  }

  /** A line that is blank or rejected calls nothing and changes nothing. */
  lemma RejectedLineChangesNothing(pinMapping: seq<Setting>, mapping: map<string, seq<int>>, deviceName: string,
                                   line: string, p: Platform, parse: string -> Option<real>)
    requires line == "" || TryGetInfoFromSerial(line, pinMapping, mapping, parse).Err?
    ensures LineEffect(pinMapping, mapping, deviceName, line, p, parse) ==
              Effect(if line == "" then Blank
                     else Rejected(TryGetInfoFromSerial(line, pinMapping, mapping, parse).error), mapping, p)
  {
  }

  /** A channel whose pin key is absent never reaches the audio sessions. */
  lemma UnknownPinCallsNothing(pinMapping: seq<Setting>, mapping: map<string, seq<int>>, deviceName: string,
                               channel: string, text: string, p: Platform, parse: string -> Option<real>)
    requires ':' !in channel && ':' !in text
    requires forall i :: 0 <= i < |pinMapping| ==> pinMapping[i].key != "Pin_" + channel
    ensures LineEffect(pinMapping, mapping, deviceName, channel + ":" + text, p, parse)
         == Effect(Rejected(UnknownPin), mapping, p)
  {
    SplitTwoFields(channel, text, ':');
    SplitCount(channel + ":" + text, ':');
  }

  /**
    An application whose cached list is empty is resolved once: if that fails
    the line is dropped with nothing changed.
  */
  lemma EmptyListUnresolved(pinMapping: seq<Setting>, mapping: map<string, seq<int>>, deviceName: string,
                            line: string, p: Platform, parse: string -> Option<real>)
    requires line != "" && TryGetInfoFromSerial(line, pinMapping, mapping, parse).Ok?
    requires TryGetInfoFromSerial(line, pinMapping, mapping, parse).value.processIds == []
    requires FirstDevice(p.devices, deviceName).None?
    ensures LineEffect(pinMapping, mapping, deviceName, line, p, parse) == Effect(Unresolved, mapping, p)
  {
  }

  /**
    Applying a list `ids` that the mapping holds for `application`: the calls go to
    exactly the ids the mapping holds afterwards, in order, each with the volume;
    one resolution per dead id; only session levels change.
  */
  lemma RepairAndApplyCalls(application: string, ids: seq<int>, mapping: map<string, seq<int>>, resolutions: nat,
                            deviceName: string, p: Platform, volume: real)
    requires application in mapping && mapping[application] == ids
    requires RepairAndApply(application, ids, mapping, resolutions, deviceName, p, volume).outcome.Applied?
    ensures var e := RepairAndApply(application, ids, mapping, resolutions, deviceName, p, volume);
            && application in e.mapping
            && e.mapping == mapping[application := e.mapping[application]]
            && e.mapping[application]
               == (if DeadCount(ids, p.processes) > 0 && Resolve(p, application, deviceName).Found?
                   then Resolve(p, application, deviceName).pids else ids)
            && |e.outcome.calls| == |e.mapping[application]|
            && (forall i :: 0 <= i < |e.outcome.calls| ==>
                  e.outcome.calls[i].pid == e.mapping[application][i] && e.outcome.calls[i].volume == volume)
            && e.outcome.resolutions == resolutions + DeadCount(ids, p.processes)
            && SameTopology(p, e.platform)
  {
    var r := RepairIds(application, ids, mapping, deviceName, p);
    FanOutCalls(p, deviceName, r.ids, volume);
  }

  /**
    A decoded line whose cached list is the mapping's entry: when volume is
    applied, the calls go to the entry the mapping holds afterwards, and the
    resolutions are one for an empty list plus one per dead id checked.
  */
  lemma ApplyInfoCalls(info: LineInfo, mapping: map<string, seq<int>>, deviceName: string, p: Platform)
    requires info.application in mapping && mapping[info.application] == info.processIds
    requires ApplyInfo(info, mapping, deviceName, p).outcome.Applied?
    ensures var e := ApplyInfo(info, mapping, deviceName, p);
            var app := info.application;
            var checked := if info.processIds == [] then Resolve(p, app, deviceName).pids else info.processIds;
            && app in e.mapping
            && e.mapping == mapping[app := e.mapping[app]]
            && e.mapping[app]
               == (if info.processIds == [] || (DeadCount(checked, p.processes) > 0 && Resolve(p, app, deviceName).Found?)
                   then Resolve(p, app, deviceName).pids else info.processIds)
            && |e.outcome.calls| == |e.mapping[app]|
            && (forall i :: 0 <= i < |e.outcome.calls| ==>
                  e.outcome.calls[i].pid == e.mapping[app][i] && e.outcome.calls[i].volume == info.volume)
            && e.outcome.resolutions == (if info.processIds == [] then 1 else 0) + DeadCount(checked, p.processes)
            && SameTopology(p, e.platform)
  {
    var app := info.application;
    if info.processIds == [] {
      var ids := Resolve(p, app, deviceName).pids;
      RepairAndApplyCalls(app, ids, mapping[app := ids], 1, deviceName, p, info.volume);
      assert mapping[app := ids][app := ids] == mapping[app := ids];
    } else {
      RepairAndApplyCalls(app, info.processIds, mapping, 0, deviceName, p, info.volume);
    }
  }

  /**
    Whenever volume is applied, the calls go to exactly the ids the mapping now
    holds for the application, in that order, each with the decoded volume; the
    mapping changes at most at that application, whose entry becomes the freshly
    resolved list after an empty cached list or a successful re-resolution of a
    dead id, and otherwise stays the cached list; every resolution is accounted
    for: one for an empty cached list and one per dead id of the list checked.
  */
  lemma AppliedLine(pinMapping: seq<Setting>, mapping: map<string, seq<int>>, deviceName: string,
                    line: string, p: Platform, parse: string -> Option<real>)
    requires LineEffect(pinMapping, mapping, deviceName, line, p, parse).outcome.Applied?
    ensures var info := TryGetInfoFromSerial(line, pinMapping, mapping, parse);
            var e := LineEffect(pinMapping, mapping, deviceName, line, p, parse);
            var app := info.value.application;
            var checked := if info.value.processIds == [] then Resolve(p, app, deviceName).pids else info.value.processIds;
            && line != "" && info.Ok?
            && app in e.mapping
            && e.mapping == mapping[app := e.mapping[app]]
            && e.mapping[app]
               == (if info.value.processIds == [] || (DeadCount(checked, p.processes) > 0 && Resolve(p, app, deviceName).Found?)
                   then Resolve(p, app, deviceName).pids else info.value.processIds)
            && |e.outcome.calls| == |e.mapping[app]|
            && (forall i :: 0 <= i < |e.outcome.calls| ==>
                  e.outcome.calls[i].pid == e.mapping[app][i] && e.outcome.calls[i].volume == info.value.volume)
            && e.outcome.resolutions == (if info.value.processIds == [] then 1 else 0) + DeadCount(checked, p.processes)
            && SameTopology(p, e.platform)
  {
    var info := TryGetInfoFromSerial(line, pinMapping, mapping, parse).value;
    assert LineEffect(pinMapping, mapping, deviceName, line, p, parse) == ApplyInfo(info, mapping, deviceName, p);
    ApplyInfoCalls(info, mapping, deviceName, p);
  }

  /**
    After a successful re-resolution the mapping holds only live ids of processes
    with the application's name: no stale id survives the repair.
  */
  lemma RepairLeavesLiveIds(pinMapping: seq<Setting>, mapping: map<string, seq<int>>, deviceName: string,
                            line: string, p: Platform, parse: string -> Option<real>)
    requires LineEffect(pinMapping, mapping, deviceName, line, p, parse).outcome.Applied?
    requires LineEffect(pinMapping, mapping, deviceName, line, p, parse).outcome.resolutions > 0
    requires Resolve(p, TryGetInfoFromSerial(line, pinMapping, mapping, parse).value.application, deviceName).Found?
    ensures var app := TryGetInfoFromSerial(line, pinMapping, mapping, parse).value.application;
            var e := LineEffect(pinMapping, mapping, deviceName, line, p, parse);
            forall x :: x in e.mapping[app] ==> Alive(p, x) && p.processes[x] == app
  {
    var app := TryGetInfoFromSerial(line, pinMapping, mapping, parse).value.application;
    ResolveFound(p, app, deviceName);
  }

  /**
    The scenario of a single live process "music.exe" with an audio session and
    pin 1 mapped to it: the line "1:50" makes exactly one call, for that process,
    and leaves its session at level 0.5.
  */
  lemma SingleProcessScenario(parse: string -> Option<real>)
    requires parse("50") == Some(50.0)
    ensures var pins := [Setting("Pin_1", "music.exe")];
            var mapping := map["music.exe" := [42]];
            var p := Platform([Device("Speakers", [Session(42, true, 1.0)])], map[42 := "music.exe"]);
            var e := LineEffect(pins, mapping, "Speakers", "1:50", p, parse);
            && e.outcome == Applied(0, [VolumeCall(42, 50.0, true)])
            && e.mapping == mapping
            && e.platform == Platform([Device("Speakers", [Session(42, true, 0.5)])], map[42 := "music.exe"])
  {
    var pins := [Setting("Pin_1", "music.exe")];
    var mapping := map["music.exe" := [42]];
    DecodeWellFormed("1", "50", pins, mapping, parse, "music.exe", 50.0);
    assert "1" + ":" + "50" == "1:50";
    var p := Platform([Device("Speakers", [Session(42, true, 1.0)])], map[42 := "music.exe"]);
    var after := Platform([Device("Speakers", [Session(42, true, 0.5)])], map[42 := "music.exe"]);
    assert [42][..0] == [];
    assert DeadCount([42], p.processes) == 0;
    assert RepairIds("music.exe", [42], mapping, "Speakers", p) == Repaired(0, [42], mapping);
    assert VolumeTarget(p, "Speakers", 42) == Some(Handle(0, 0));
    assert 50.0 / 100.0 == 0.5;
    var speakers := Device("Speakers", [Session(42, true, 1.0)]);
    assert speakers.sessions[0 := Session(42, true, 0.5)] == [Session(42, true, 0.5)];
    assert p.devices[0 := Device("Speakers", [Session(42, true, 0.5)])] == after.devices;
    assert SetLevel(p, Handle(0, 0), 0.5) == after;
    assert FanOut(p, "Speakers", [42], 50.0) == Fan([VolumeCall(42, 50.0, true)], after);
  }

  // ---------------------------------------------------------------------------
  // A whole run over a finite prefix of the serial input

  datatype RunEffect = RunEffect(outcomes: seq<LineOutcome>, mapping: map<string, seq<int>>, platform: Platform)

  /**
    One line read from the port, together with the OS process table at the moment
    it is handled: processes exit and start between lines.
  */
  datatype Reading = Reading(line: string, processes: map<int, string>)

  /** The platform a line meets: that moment's process table, the devices as the run left them. */
  function Refresh(p: Platform, r: Reading): (q: Platform)
    ensures q.processes == r.processes && q.devices == p.devices
  {
    p.(processes := r.processes)
  }

  /** Lines are handled one after the other until an exception escapes. */
  function RunLines(pinMapping: seq<Setting>, mapping: map<string, seq<int>>, deviceName: string,
                    readings: seq<Reading>, p: Platform, parse: string -> Option<real>): RunEffect
    decreases |readings|
  {
    if readings == [] then RunEffect([], mapping, p)
    else
      var e := LineEffect(pinMapping, mapping, deviceName, readings[0].line, Refresh(p, readings[0]), parse);
      if e.outcome.Threw? then RunEffect([e.outcome], e.mapping, e.platform)
      else
        var rest := RunLines(pinMapping, e.mapping, deviceName, readings[1..], e.platform, parse);
        RunEffect([e.outcome] + rest.outcomes, rest.mapping, rest.platform)
  }

  /**
    Only an escaping exception ends the run early: every line before it was handled,
    and message-level failures (rejections, unresolved applications) never stop it.
  */
  lemma {:induction false} RunStopsOnlyOnThrow(pinMapping: seq<Setting>, mapping: map<string, seq<int>>,
                                               deviceName: string, readings: seq<Reading>, p: Platform,
                                               parse: string -> Option<real>)
    ensures var r := RunLines(pinMapping, mapping, deviceName, readings, p, parse);
            && |r.outcomes| <= |readings|
            && (forall i :: 0 <= i < |r.outcomes| - 1 ==> !r.outcomes[i].Threw?)
            && (|r.outcomes| < |readings| ==> |r.outcomes| > 0 && r.outcomes[|r.outcomes| - 1].Threw?)
    decreases |readings|
  {
    if readings != [] {
      var e := LineEffect(pinMapping, mapping, deviceName, readings[0].line, Refresh(p, readings[0]), parse);
      if !e.outcome.Threw? {
        RunStopsOnlyOnThrow(pinMapping, e.mapping, deviceName, readings[1..], e.platform, parse);
      }
    }
  }

  /** The engine: its configuration (held by reference) and its serial port. */
  class VolMixer {
    const config: VolMixerConfig
    const port: SerialPort

    constructor (config: VolMixerConfig, opens: nat -> bool)
      ensures this.config == config && fresh(port)
      ensures port.portName == config.portname && port.baudRate == config.baudrate && port.opens == opens
      ensures !port.isOpen && port.attempts == 0
    {
      this.config := config;
      port := new SerialPort(config.portname, config.baudrate, opens);
    }

    /**
      `TryOpenPort`: an open port is kept; otherwise at most `MaxRetries` attempts
      (none when it is zero or negative) until one succeeds. `failed` is the count
      of failed attempts; the result is whether the port ends up open.
    */
    method TryOpenPort() returns (ok: bool, failed: nat)
      modifies port
      ensures ok == port.isOpen
      ensures old(port.isOpen) ==> ok && port.attempts == old(port.attempts) && failed == 0
      ensures !old(port.isOpen) ==>
                && port.attempts == old(port.attempts) + AttemptsMade(port.opens, old(port.attempts), config.maxRetries)
                && ok == OpensWithin(port.opens, old(port.attempts), config.maxRetries)
                && failed == port.attempts - old(port.attempts) - (if ok then 1 else 0)
    {
      failed := 0;
      if !port.isOpen {
        var start := port.attempts;
        var tryCount := 1;
        while !port.isOpen && tryCount <= config.maxRetries
          invariant tryCount >= 1 && failed == tryCount - 1
          invariant !port.isOpen ==>
                      && port.attempts == start + failed
                      && AttemptsMade(port.opens, start, config.maxRetries)
                         == failed + AttemptsMade(port.opens, port.attempts, config.maxRetries - failed)
                      && OpensWithin(port.opens, start, config.maxRetries)
                         == OpensWithin(port.opens, port.attempts, config.maxRetries - failed)
          invariant port.isOpen ==>
                      && port.attempts == start + failed + 1
                      && AttemptsMade(port.opens, start, config.maxRetries) == failed + 1
                      && OpensWithin(port.opens, start, config.maxRetries)
          decreases if port.isOpen then 0 else config.maxRetries - tryCount + 1
        {
          var success := port.Open();
          if !success {
            tryCount := tryCount + 1;
            failed := failed + 1;
          }
        }
      }
      ok := port.isOpen;
    }

    /**
      The liveness check of one line over the list `ids` it captured: for every id
      whose process is gone, look the application up again; a successful lookup
      replaces the list and the mapping entry, a failed one moves on.
    */
    method CheckProcesses(application: string, ids: seq<int>, p: Platform) returns (r: Repair)
      modifies config`processMapping
      ensures r == RepairIds(application, ids, old(config.processMapping), config.deviceName, p)
      ensures config.processMapping == if r.Repaired? then r.mapping else old(config.processMapping)
    {
      var processIds := ids;
      var dead: nat := 0;
      ghost var mapping0 := config.processMapping;
      for i := 0 to |ids|
        invariant RepairAfter(application, ids, i, mapping0, config.deviceName, p)
               == Repaired(dead, processIds, config.processMapping)
      {
        RepairStep(application, ids, i, mapping0, config.deviceName, p);
        if ids[i] !in p.processes {
          var found := TryGetProcessIdsByApplicationName(application, config.deviceName, p);
          dead := dead + 1;
          if found.Crashed? {
            RepairThrewStays(application, ids, i + 1, mapping0, config.deviceName, p);
            return RepairThrew(found.pid);
          }
          if found.NoDevice? {
            continue;
          }
          processIds := found.pids;
          config.processMapping := config.processMapping[application := found.pids];
        }
      }
      assert ids[..|ids|] == ids;
      r := Repaired(dead, processIds, config.processMapping);
    }

    /** The fan-out: one `TrySetApplicationVolume` per id, in order, failures logged and skipped. */
    method SetVolumes(ids: seq<int>, volume: real, p: Platform) returns (calls: seq<VolumeCall>, q: Platform)
      ensures Fan(calls, q) == FanOut(p, config.deviceName, ids, volume)
    {
      calls, q := [], p;
      for j := 0 to |ids|
        invariant Fan(calls, q) == FanOut(p, config.deviceName, ids[..j], volume)
      {
        assert ids[..j + 1][..j] == ids[..j];
        var ok;
        ok, q := TrySetApplicationVolume(ids[j], config.deviceName, volume, q);
        calls := calls + [VolumeCall(ids[j], volume, ok)];
      }
      assert ids[..|ids|] == ids;
    }

    /** A decoded line: resolve an empty cached list, check liveness, set the volumes. */
    method ApplyLine(info: LineInfo, p: Platform) returns (outcome: LineOutcome, q: Platform)
      modifies config`processMapping
      ensures Effect(outcome, config.processMapping, q) == ApplyInfo(info, old(config.processMapping), config.deviceName, p)
    {
      q := p;
      var processIds := info.processIds;
      var resolutions := 0;
      if |processIds| == 0 {
        var found := TryGetProcessIdsByApplicationName(info.application, config.deviceName, p);
        if found.NoDevice? {
          return Unresolved, q;
        } else if found.Crashed? {
          return Threw(found.pid), q;
        }
        resolutions := 1;
        processIds := found.pids;
        config.processMapping := config.processMapping[info.application := found.pids];
      }
      outcome, q := CheckAndSet(info.application, processIds, resolutions, info.volume, p);
    }

    /** Liveness check of the list `ids`, then the fan-out to the list it leaves. */
    method CheckAndSet(application: string, ids: seq<int>, resolutions: nat, volume: real, p: Platform)
      returns (outcome: LineOutcome, q: Platform)
      modifies config`processMapping
      ensures Effect(outcome, config.processMapping, q)
           == RepairAndApply(application, ids, old(config.processMapping), resolutions, config.deviceName, p, volume)
    {
      q := p;
      var repair := CheckProcesses(application, ids, p);
      if repair.RepairThrew? {
        return Threw(repair.pid), q;
      }
      var calls;
      calls, q := SetVolumes(repair.ids, volume, p);
      outcome := Applied(resolutions + repair.dead, calls);
    }

    /** The body of the `while (true)` loop for one line read from the port. */
    method HandleLine(line: string, p: Platform, parse: string -> Option<real>) returns (outcome: LineOutcome, q: Platform)
      modifies config`processMapping
      ensures Effect(outcome, config.processMapping, q)
           == LineEffect(config.pinMapping, old(config.processMapping), config.deviceName, line, p, parse)
    {
      q := p;
      if line == "" {
        return Blank, q;
      }
      var info := TryGetInfoFromSerial(line, config.pinMapping, config.processMapping, parse);
      if info.Err? {
        return Rejected(info.error), q;
      }
      outcome, q := ApplyLine(info.value, p);
    }

    /**
      `Run` over the lines the port delivers: the port is opened first, as
      `TryOpenPort` does; nothing is read when it cannot be opened; otherwise lines
      are handled in order until an exception escapes.
    */
    method Run(readings: seq<Reading>, p: Platform, parse: string -> Option<real>)
      returns (portOpen: bool, outcomes: seq<LineOutcome>, q: Platform)
      modifies port, config`processMapping
      ensures portOpen == port.isOpen
      ensures old(port.isOpen) ==> portOpen && port.attempts == old(port.attempts)
      ensures !old(port.isOpen) ==>
                && port.attempts == old(port.attempts) + AttemptsMade(port.opens, old(port.attempts), config.maxRetries)
                && portOpen == OpensWithin(port.opens, old(port.attempts), config.maxRetries)
      ensures !portOpen ==> outcomes == [] && q == p && config.processMapping == old(config.processMapping)
      ensures portOpen ==>
                RunEffect(outcomes, config.processMapping, q)
                == RunLines(config.pinMapping, old(config.processMapping), config.deviceName, readings, p, parse)
    {
      var failed;
      portOpen, failed := TryOpenPort();
      q := p;
      outcomes := [];
      if !portOpen {
        return;
      }
      ghost var attempts := port.attempts;
      var i := 0;
      while i < |readings|
        invariant 0 <= i <= |readings|
        invariant port.isOpen && port.attempts == attempts
        invariant RunLines(config.pinMapping, old(config.processMapping), config.deviceName, readings, p, parse)
               == Prepend(outcomes, RunLines(config.pinMapping, config.processMapping, config.deviceName, readings[i..], q, parse))
        invariant forall k :: 0 <= k < |outcomes| ==> !outcomes[k].Threw?
      {
        var outcome;
        outcome, q := HandleLine(readings[i].line, Refresh(q, readings[i]), parse);
        if outcome.Threw? {
          outcomes := outcomes + [outcome];
          PrependSnoc(outcomes[..|outcomes| - 1], outcome, RunEffect([], config.processMapping, q));
          assert outcomes[..|outcomes| - 1] + [outcome] == outcomes;
          return;
        }
        assert readings[i..][1..] == readings[i + 1..];
        PrependSnoc(outcomes, outcome,
          RunLines(config.pinMapping, config.processMapping, config.deviceName, readings[i + 1..], q, parse));
        outcomes := outcomes + [outcome];
        i := i + 1;
      }
      assert Prepend(outcomes, RunEffect([], config.processMapping, q)) == RunEffect(outcomes, config.processMapping, q);
    }
  }

  /** The outcomes already produced, followed by the effect of the rest of the run. */
  function Prepend(done: seq<LineOutcome>, rest: RunEffect): RunEffect
  {
    RunEffect(done + rest.outcomes, rest.mapping, rest.platform)
  }

  lemma PrependSnoc(done: seq<LineOutcome>, o: LineOutcome, rest: RunEffect)
    ensures Prepend(done, RunEffect([o] + rest.outcomes, rest.mapping, rest.platform)) == Prepend(done + [o], rest)
  {
    assert done + ([o] + rest.outcomes) == (done + [o]) + rest.outcomes;
  }
}
